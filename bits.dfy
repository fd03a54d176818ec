/**
 * Python's integer semantics as the drivers use it: unbounded integers with
 * floor division (`//`), arithmetic shifts (`>>` rounds toward minus
 * infinity), two's-complement bitwise or (`|`) and masking (`&`), plus the
 * `struct` conversions between bytes and 8- and 16-bit fields.
 */
module Bits {

  /** A value read from the bus: one byte. */
  type Byte = x: int | 0 <= x < 256

  function Pow2(n: nat): (r: nat)
    ensures r >= 1
  {
    if n == 0 then 1 else 2 * Pow2(n - 1)
  }

  lemma {:induction false} Pow2Add(a: nat, b: nat)
    ensures Pow2(a + b) == Pow2(a) * Pow2(b)
  {
    if a > 0 {
      Pow2Add(a - 1, b);
      assert Pow2(a + b) == 2 * Pow2(a - 1 + b);
    }
  }

  /** Python's `a // b`: the quotient rounded toward minus infinity. */
  function FloorDiv(a: int, b: int): (q: int)
    requires b != 0
    ensures b > 0 ==> b * q <= a < b * q + b
    ensures b < 0 ==> b * q + b < a <= b * q
  {
    if b > 0 then a / b else (-a) / (-b)
  }

  /** Python's `a << n`. */
  function Shl(a: int, n: nat): int
  {
    a * Pow2(n)
  }

  /** Python's `a >> n`: an arithmetic shift, rounding toward minus infinity. */
  function Shr(a: int, n: nat): (r: int)
    ensures Pow2(n) * r <= a < Pow2(n) * r + Pow2(n)
    ensures a >= 0 ==> r >= 0
  {
    var b := Pow2(n);
    var q := FloorDiv(a, b);
    assert a >= 0 ==> q >= 0 by {
      if a >= 0 && q < 0 {
        MulAtLeast(-q, b);
      }
    }
    q
  }

  function Abs(a: int): nat
  {
    if a < 0 then -a else a
  }

  /**
   * Python's `a | b` on integers of any sign: bitwise or of the (infinite)
   * two's-complement representations. 0 and -1 are the two values whose
   * bits are all equal.
   */
  function Or(a: int, b: int): int
    decreases Abs(a) + Abs(b)
  {
    if (a == 0 || a == -1) && (b == 0 || b == -1) then
      (if a == -1 || b == -1 then -1 else 0)
    else
      2 * Or(a / 2, b / 2) + (if a % 2 == 1 || b % 2 == 1 then 1 else 0)
  }

  /** Python's `a & b` on integers of any sign (two's complement, as for `|`). */
  function And(a: int, b: int): int
    decreases Abs(a) + Abs(b)
  {
    if a == 0 || b == 0 then 0
    else if a == -1 then b
    else if b == -1 then a
    else 2 * And(a / 2, b / 2) + (a % 2) * (b % 2)
  }

  lemma {:induction false} OrZero(a: int)
    ensures Or(a, 0) == a
    decreases Abs(a)
  {
    if !(a == 0 || a == -1) {
      OrZero(a / 2);
    }
  }

  /** Or-ing a value into the zero low bits of `hi * 2^k` is addition. */
  lemma {:induction false} OrShifted(hi: int, lo: int, k: nat)
    requires 0 <= lo < Pow2(k)
    ensures Or(hi * Pow2(k), lo) == hi * Pow2(k) + lo
  {
    if k == 0 {
      OrZero(hi);
    } else {
      var h := hi * Pow2(k);
      assert h == 2 * (hi * Pow2(k - 1));
      if h == 0 && lo == 0 {
      } else {
        assert h / 2 == hi * Pow2(k - 1) && h % 2 == 0;
        OrShifted(hi, lo / 2, k - 1);
      }
    }
  }

  /** The form in which the drivers use `|`: the two operands occupy disjoint bits. */
  lemma OrDisjoint(a: int, b: int, k: nat)
    requires a % Pow2(k) == 0 && 0 <= b < Pow2(k)
    ensures Or(a, b) == a + b
  {
    var hi := a / Pow2(k);
    assert a == hi * Pow2(k);
    OrShifted(hi, b, k);
  }

  lemma DivModUnique(x: int, n: int, q: int, r: int)
    requires n > 0 && 0 <= r < n && x == q * n + r
    ensures x / n == q && x % n == r
  {
    var q', r' := x / n, x % n;
    assert (q - q') * n == r' - r;
    if q > q' {
      assert (q - q') * n >= n by { MulAtLeast(q - q', n); }
    } else if q < q' {
      assert (q' - q) * n >= n by { MulAtLeast(q' - q, n); }
    }
  }

  lemma MulAtLeast(a: int, n: int)
    requires a >= 1 && n > 0
    ensures a * n >= n
  {
    assert a * n == n + (a - 1) * n;
  }

  /** Peeling off the lowest bit of a division or remainder by `2^k`. */
  lemma HalfDivMod(x: nat, k: nat)
    requires k > 0
    ensures x / Pow2(k) == (x / 2) / Pow2(k - 1)
    ensures x % Pow2(k) == 2 * ((x / 2) % Pow2(k - 1)) + x % 2
  {
    var p := Pow2(k - 1);
    var q, t := (x / 2) / p, (x / 2) % p;
    assert x / 2 == q * p + t;
    assert x == q * Pow2(k) + (2 * t + x % 2);
    DivModUnique(x, Pow2(k), q, 2 * t + x % 2);
  }

  /** `x & (2^w - 1)` keeps the low `w` bits. */
  lemma {:induction false} AndLow(x: nat, w: nat)
    ensures And(x, Pow2(w) - 1) == x % Pow2(w)
  {
    if w == 0 {
    } else if x == 0 {
    } else {
      var p, P := Pow2(w - 1), Pow2(w);
      assert P == 2 * p;
      assert (P - 1) / 2 == p - 1 && (P - 1) % 2 == 1;
      AndLow(x / 2, w - 1);
      HalfDivMod(x, w);
    }
  }

  /** Masking with `m << k` is masking the value shifted right by `k`, then shifting back. */
  lemma {:induction false} AndShifted(x: nat, m: nat, k: nat)
    ensures And(x, m * Pow2(k)) == And(x / Pow2(k), m) * Pow2(k)
  {
    if k == 0 {
    } else if x == 0 {
      assert x / Pow2(k) == 0;
    } else if m == 0 {
    } else {
      var p, P := Pow2(k - 1), Pow2(k);
      assert P == 2 * p;
      AndShiftedStep(x, m, p, P);
      AndShifted(x / 2, m, k - 1);
      HalfDivMod(x, k);
      Twice(And(x / P, m), p, P);
    }
  }

  /** One peeled bit of `AndShifted`: both operands are halved. */
  lemma AndShiftedStep(x: nat, m: nat, p: nat, P: nat)
    requires x > 0 && m > 0 && p > 0 && P == 2 * p
    ensures And(x, m * P) == 2 * And(x / 2, m * p)
  {
    Twice(m, p, P);
    var b := m * P;
    assert b / 2 == m * p && b % 2 == 0;
  }

  lemma Twice(a: int, p: int, P: int)
    requires P == 2 * p
    ensures a * P == 2 * (a * p)
  {
  }

  /** `x & ((2^w - 1) << k)` keeps bits k .. k+w-1 in place. */
  lemma AndField(x: nat, k: nat, w: nat)
    ensures And(x, (Pow2(w) - 1) * Pow2(k)) == (x / Pow2(k)) % Pow2(w) * Pow2(k)
  {
    var m: nat, P := Pow2(w) - 1, Pow2(k);
    AndShifted(x, m, k);
    var y: nat := NatDiv(x, P);
    AndLow(y, w);
  }

  function NatDiv(x: nat, d: nat): (q: nat)
    requires d > 0
    ensures q == x / d
  {
    x / d
  }

  /** The powers of two the drivers' shift counts and masks use. */
  lemma Pow2Table()
    ensures Pow2(1) == 2 && Pow2(2) == 4 && Pow2(3) == 8 && Pow2(4) == 16
    ensures Pow2(5) == 32 && Pow2(6) == 64 && Pow2(7) == 128 && Pow2(8) == 256
    ensures Pow2(11) == 2048 && Pow2(12) == 4096 && Pow2(13) == 8192
    ensures Pow2(15) == 32768 && Pow2(16) == 65536
  {
  }

  /** On a non-negative value `>>` is plain division. */
  lemma ShrNat(a: nat, n: nat)
    ensures Shr(a, n) == a / Pow2(n)
  {
  }

  /** `x & m` for a mask `m` of the `w` low bits. */
  lemma MaskLow(x: nat, w: nat, m: int)
    requires m == Pow2(w) - 1
    ensures And(x, m) == x % Pow2(w)
  {
    AndLow(x, w);
  }

  /** `(x & m) >> k` for a mask `m` of the `w` bits from bit `k`: the field itself. */
  lemma MaskField(x: nat, k: nat, w: nat, m: int)
    requires m == (Pow2(w) - 1) * Pow2(k)
    ensures And(x, m) == Field(x, k, w) * Pow2(k)
    ensures Shr(And(x, m), k) == Field(x, k, w)
  {
    AndField(x, k, w);
    ShrMul(Field(x, k, w), k);
  }

  lemma ShrMul(f: nat, k: nat)
    ensures Shr(f * Pow2(k), k) == f
  {
    var P := Pow2(k);
    DivModUnique(f * P, P, f, 0);
  }

  lemma {:induction false} ZeroOr(b: int)
    ensures Or(0, b) == b
    decreases Abs(b)
  {
    if !(b == 0 || b == -1) {
      ZeroOr(b / 2);
    }
  }

  lemma MulStrict(f: int, n: int, p: int)
    requires 0 <= f < n && p > 0
    ensures f * p < n * p
  {
    MulAtLeast(n - f, p);
    assert n * p - f * p == (n - f) * p;
  }

  /**
   * The configuration-byte idiom `acc |= (f << k)`: when the bits of `acc`
   * start at `k + w` and `f` has `w` bits, the or is an addition.
   */
  lemma OrField(acc: int, hi: int, f: nat, k: nat, w: nat, p: nat, q: nat)
    requires p == Pow2(k) && q == Pow2(w)
    requires acc == hi * (p * q) && f < q
    ensures Or(acc, Shl(f, k)) == acc + f * p
  {
    Pow2Add(k, w);
    MulStrict(f, q, p);
    assert f * p < q * p;
    DivModUnique(acc, p * q, hi, 0);
    OrDisjoint(acc, f * p, k + w);
  }

  /** `(hi << 8) | lo` for a byte `lo` is `hi * 256 + lo`. */
  lemma OrByte(hi: int, lo: Byte)
    ensures Or(Shl(hi, 8), lo) == hi * 256 + lo
  {
    Pow2Table();
    OrShifted(hi, lo, 8);
  }

  /** Big-endian 16-bit word from two bytes (`struct` format `>H`). */
  function Be16(msb: Byte, lsb: Byte): (w: nat)
    ensures w < 65536 && w / 256 == msb && w % 256 == lsb
  {
    msb * 256 + lsb
  }

  /** Little-endian 16-bit word from two bytes (`struct` format `<H`, and an SMBus word read). */
  function Le16(lsb: Byte, msb: Byte): (w: nat)
    ensures w < 65536 && w / 256 == msb && w % 256 == lsb
  {
    Be16(msb, lsb)
  }

  /** The drivers' `(msb << 8) | lsb`: the big-endian word of two bytes. */
  function Word16(msb: Byte, lsb: Byte): (w: nat)
    ensures w == Be16(msb, lsb)
  {
    OrByte(msb, lsb);
    Or(Shl(msb, 8), lsb)
  }

  /** The drivers' `(msb << 16) | (csb << 8) | lsb`: the big-endian 24-bit word of three bytes. */
  function Word24(msb: Byte, csb: Byte, lsb: Byte): (w: nat)
    ensures w == msb * 65536 + csb * 256 + lsb
    ensures w < 16777216
  {
    Word24High(msb, csb);
    Word24Low(msb, csb, lsb);
    Or(Or(Shl(msb, 16), Shl(csb, 8)), lsb)
  }

  lemma Word24High(msb: Byte, csb: Byte)
    ensures Or(Shl(msb, 16), Shl(csb, 8)) == msb * 65536 + csb * 256
  {
    Pow2Table();
    OrField(Shl(msb, 16), msb, csb, 8, 8, 256, 256);
  }

  lemma Word24Low(msb: Byte, csb: Byte, lsb: Byte)
    ensures Or(msb * 65536 + csb * 256, lsb) == msb * 65536 + csb * 256 + lsb
  {
    Pow2Table();
    var hi := msb * 256 + csb;
    assert msb * 65536 + csb * 256 == hi * Pow2(8);
    OrShifted(hi, lsb, 8);
  }

  /**
   * The Bosch 20-bit ADC code `(msb << 12) | (lsb << 4) | (xlsb >> 4)`: the
   * two full bytes and the high nibble of the third.
   */
  function Raw20(msb: Byte, lsb: Byte, xlsb: Byte): (w: nat)
    ensures w == msb * 4096 + lsb * 16 + xlsb / 16
    ensures w < 1048576
  {
    Raw20High(msb, lsb);
    Raw20Low(msb, lsb, xlsb);
    Or(Or(Shl(msb, 12), Shl(lsb, 4)), Shr(xlsb, 4))
  }

  lemma Raw20High(msb: Byte, lsb: Byte)
    ensures Or(Shl(msb, 12), Shl(lsb, 4)) == msb * 4096 + lsb * 16
  {
    Pow2Table();
    OrField(Shl(msb, 12), msb, lsb, 4, 8, 16, 256);
  }

  lemma Raw20Low(msb: Byte, lsb: Byte, xlsb: Byte)
    ensures Or(msb * 4096 + lsb * 16, Shr(xlsb, 4)) == msb * 4096 + lsb * 16 + xlsb / 16
  {
    Pow2Table();
    ShrNat(xlsb, 4);
    var hi := msb * 256 + lsb;
    assert msb * 4096 + lsb * 16 == hi * Pow2(4);
    OrShifted(hi, xlsb / 16, 4);
  }

  /** Two's-complement reading of a 16-bit field (`struct` format `h`). */
  function Signed16(u: nat): (s: int)
    requires u < 65536
    ensures -32768 <= s < 32768
    ensures (s - u) % 65536 == 0
    ensures s < 0 <==> u >= 32768
  {
    if u >= 32768 then u - 65536 else u
  }

  /** Two's-complement reading of an 8-bit field (`struct` format `b`). */
  function Signed8(u: Byte): (s: int)
    ensures -128 <= s < 128
    ensures (s - u) % 256 == 0
    ensures s < 0 <==> u >= 128
  {
    if u >= 128 then u - 256 else u
  }

  /** The 16-bit pattern that `struct.pack` writes for a signed field. */
  function Unsigned16(s: int): (u: nat)
    requires -32768 <= s < 32768
    ensures u < 65536 && Signed16(u) == s
  {
    if s < 0 then s + 65536 else s
  }

  lemma Signed16RoundTrip(u: nat)
    requires u < 65536
    ensures Unsigned16(Signed16(u)) == u
  {
  }

  /** The field of `width` bits at bit `shift` of `x`. */
  function Field(x: nat, shift: nat, width: nat): nat
  {
    NatDiv(x, Pow2(shift)) % Pow2(width)
  }

  /** `Field` with the two powers of two written out. */
  lemma FieldValue(x: nat, shift: nat, width: nat, p: nat, w: nat)
    requires p == Pow2(shift) && w == Pow2(width)
    ensures Field(x, shift, width) == (x / p) % w
  {
  }
}
