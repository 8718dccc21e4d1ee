/** Fixed-width unsigned integers of the interpreter.

    The interpreter keeps every register, memory cell and address in a
    `Byte` or `Short` wrapper that masks its value to 8 or 16 bits on every
    construction.  Here the widths are subset types of `int`, the masking is
    the explicit `Byte`/`Short` functions, and the bitwise operators the
    interpreter applies to non-negative Python integers are defined bit by
    bit over a fixed width.
 */
module Word {

  type u4 = x: int | 0 <= x < 0x10
  type u8 = x: int | 0 <= x < 0x100
  type u12 = x: int | 0 <= x < 0x1000
  type u16 = x: int | 0 <= x < 0x1_0000

  /** `Byte(n)`: the unique byte congruent to `n` modulo 256 (`n & 0xFF`). */
  function Byte(n: int): (r: u8)
    ensures (n - r) % 0x100 == 0
    ensures 0 <= n < 0x100 ==> r == n
  {
    n % 0x100
  }

  /** `Short(n)`: the unique 16-bit value congruent to `n` modulo 65536 (`n & 0xFFFF`). */
  function Short(n: int): (r: u16)
    ensures (n - r) % 0x1_0000 == 0
    ensures 0 <= n < 0x1_0000 ==> r == n
  {
    n % 0x1_0000
  }

  /** A comparison stored into a register: Python's `Byte(True)` is 1. */
  function Flag(b: bool): (r: u8)
    ensures r == 1 <==> b
    ensures r == 0 <==> !b
  {
    if b then 1 else 0
  }

  function Pow2(k: nat): (r: nat)
    ensures r >= 1
  {
    if k == 0 then 1 else 2 * Pow2(k - 1)
  }

  /** `a >> k` on a non-negative integer: `k` halvings, rounding down. */
  function Shr(a: nat, k: nat): (r: nat)
    ensures r <= a
    ensures a < Pow2(k) ==> r == 0
  {
    if k == 0 then a else Shr(a / 2, k - 1)
  }

  /** `a >> k` is `a` divided by `2^k`, rounding down. */
  lemma {:induction false} ShrIsDiv(a: nat, k: nat)
    ensures Shr(a, k) == a / Pow2(k)
  {
    if k > 0 {
      ShrIsDiv(a / 2, k - 1);
      HalveTwice(a, Pow2(k - 1));
    }
  }

  /** Halving and then dividing by `m` is dividing by `2 * m`. */
  lemma HalveTwice(a: nat, m: nat)
    requires m >= 1
    ensures a / 2 / m == a / (2 * m)
  {
    var q, r := a / (2 * m), a % (2 * m);
    var t := r / 2;
    assert a == (2 * m) * q + r;
    assert a == 2 * (m * q + t) + r % 2;
    DivUnique(a, 2, m * q + t, r % 2);
    DivUnique(m * q + t, m, q, t);
  }

  /** Euclidean division is unique: `d * q + r` with `0 <= r < d` divides to `q`. */
  lemma DivUnique(a: int, d: int, q: int, r: int)
    requires d > 0 && 0 <= r < d && a == d * q + r
    ensures a / d == q
  {
    var q', r' := a / d, a % d;
    assert a == d * q' + r' && 0 <= r' < d;
    if q' != q {
      var lo, hi := if q' < q then q' else q, if q' < q then q else q';
      MulStep(d, hi - lo);
      assert false;
    }
  }

  /** A positive multiple of `d` is at least `d`. */
  lemma MulStep(d: int, k: int)
    requires d > 0 && k >= 1
    ensures d * k >= d
  {
    assert d * k == d + d * (k - 1);
    assert d * (k - 1) >= 0;
  }

  /** The low `w` bits of `a & b`, computed least significant bit first. */
  function AndBits(a: nat, b: nat, w: nat): (r: nat)
    ensures r < Pow2(w)
    ensures r <= a && r <= b
  {
    if w == 0 then 0
    else 2 * AndBits(a / 2, b / 2, w - 1) + (if a % 2 == 1 && b % 2 == 1 then 1 else 0)
  }

  /** The low `w` bits of `a | b`. */
  function OrBits(a: nat, b: nat, w: nat): (r: nat)
    ensures r < Pow2(w)
    ensures a < Pow2(w) ==> a <= r
    ensures b < Pow2(w) ==> b <= r
  {
    if w == 0 then 0
    else 2 * OrBits(a / 2, b / 2, w - 1) + (if a % 2 == 1 || b % 2 == 1 then 1 else 0)
  }

  /** The low `w` bits of `a ^ b`. */
  function XorBits(a: nat, b: nat, w: nat): (r: nat)
    ensures r < Pow2(w)
  {
    if w == 0 then 0
    else 2 * XorBits(a / 2, b / 2, w - 1) + (a % 2 + b % 2) % 2
  }

  function And8(a: u8, b: u8): (r: u8)
    ensures r <= a && r <= b
  {
    assert Pow2(8) == 0x100;
    AndBits(a, b, 8)
  }

  function Or8(a: u8, b: u8): (r: u8)
    ensures a <= r && b <= r
  {
    assert Pow2(8) == 0x100;
    OrBits(a, b, 8)
  }

  function Xor8(a: u8, b: u8): (r: u8)
  {
    assert Pow2(8) == 0x100;
    XorBits(a, b, 8)
  }


  lemma {:induction false} XorBitsZero(a: nat, w: nat)
    requires a < Pow2(w)
    ensures XorBits(a, 0, w) == a
  {
    if w > 0 {
      XorBitsZero(a / 2, w - 1);
    }
  }

  /** `a & 1` is the low bit of `a`. */
  lemma AndOneIsLowBit(a: u8)
    ensures And8(a, 1) == a % 2
  {
  }

  /** Bit `k` of `a`. */
  function Bit(a: nat, k: nat): nat
  {
    Shr(a, k) % 2
  }

  /** Bit 0 of `2 * rest + low` is `low`; bit `k + 1` is bit `k` of `rest`. */
  lemma BitOfDouble(rest: nat, low: nat, k: nat)
    requires low < 2
    ensures Bit(2 * rest + low, k) == if k == 0 then low else Bit(rest, k - 1)
  {
    assert (2 * rest + low) / 2 == rest;
  }

  /** Shifting `2^m` right by `k <= m` gives `2^(m-k)`. */
  lemma {:induction false} ShrPow2(m: nat, k: nat)
    requires k <= m
    ensures Shr(Pow2(m), k) == Pow2(m - k)
  {
    if k > 0 {
      assert Pow2(m) / 2 == Pow2(m - 1);
      ShrPow2(m - 1, k - 1);
    }
  }

  /** Masking with `2^j` leaves something nonzero exactly when bit `j` is set. */
  lemma {:induction false} AndPow2(a: nat, j: nat, w: nat)
    requires j < w
    ensures AndBits(a, Pow2(j), w) != 0 <==> Bit(a, j) == 1
  {
    if j == 0 {
      assert AndBits(a / 2, 0, w - 1) == 0;
    } else {
      assert Pow2(j) % 2 == 0 && Pow2(j) / 2 == Pow2(j - 1);
      AndPow2(a / 2, j - 1, w - 1);
      assert Bit(a, j) == Bit(a / 2, j - 1);
    }
  }

  /** Bit `k` of `a & b` is set exactly when bit `k` is set in both. */
  lemma {:induction false} AndBitsBit(a: nat, b: nat, w: nat, k: nat)
    requires k < w
    ensures Bit(AndBits(a, b, w), k) == if Bit(a, k) == 1 && Bit(b, k) == 1 then 1 else 0
  {
    BitOfDouble(AndBits(a / 2, b / 2, w - 1), if a % 2 == 1 && b % 2 == 1 then 1 else 0, k);
    BitOfDouble(a / 2, a % 2, k);
    BitOfDouble(b / 2, b % 2, k);
    if k > 0 {
      AndBitsBit(a / 2, b / 2, w - 1, k - 1);
    }
  }

  /** Bit `k` of `a | b` is set exactly when bit `k` is set in either. */
  lemma {:induction false} OrBitsBit(a: nat, b: nat, w: nat, k: nat)
    requires k < w
    ensures Bit(OrBits(a, b, w), k) == if Bit(a, k) == 1 || Bit(b, k) == 1 then 1 else 0
  {
    if k > 0 {
      OrBitsBit(a / 2, b / 2, w - 1, k - 1);
    }
    OrBitStep(OrBits(a, b, w), OrBits(a / 2, b / 2, w - 1), a, b, k);
  }

  /** One step of `OrBitsBit`: the low bit is the or of the low bits, the rest shifts down. */
  lemma OrBitStep(r: nat, rest: nat, a: nat, b: nat, k: nat)
    requires r == 2 * rest + (if a % 2 == 1 || b % 2 == 1 then 1 else 0)
    requires k > 0 ==> Bit(rest, k - 1) == if Bit(a / 2, k - 1) == 1 || Bit(b / 2, k - 1) == 1 then 1 else 0
    ensures Bit(r, k) == if Bit(a, k) == 1 || Bit(b, k) == 1 then 1 else 0
  {
    BitOfDouble(rest, if a % 2 == 1 || b % 2 == 1 then 1 else 0, k);
    BitOfDouble(a / 2, a % 2, k);
    BitOfDouble(b / 2, b % 2, k);
  }

  /** Bit `k` of `a ^ b` is set exactly when bit `k` is set in one of them only. */
  lemma {:induction false} XorBitsBit(a: nat, b: nat, w: nat, k: nat)
    requires k < w
    ensures Bit(XorBits(a, b, w), k) == if Bit(a, k) != Bit(b, k) then 1 else 0
  {
    BitOfDouble(XorBits(a / 2, b / 2, w - 1), (a % 2 + b % 2) % 2, k);
    BitOfDouble(a / 2, a % 2, k);
    BitOfDouble(b / 2, b % 2, k);
    if k > 0 {
      XorBitsBit(a / 2, b / 2, w - 1, k - 1);
    }
  }
}
