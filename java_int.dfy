/** Java's 32-bit two's-complement `int` and the operators on it that the two
    items use: narrowing after `-` and `*`, and the bitwise `&` of the flight
    tick cadence. */
module JavaInt {

  const TWO_32: int := 0x1_0000_0000

  /** Java `int`. */
  newtype int32 = x: int | -0x8000_0000 <= x < 0x8000_0000

  /** The `int` that Java keeps of an exact integer result: the one value of
      the `int` range congruent to it modulo 2^32. */
  function Wrap(x: int): (r: int32)
    ensures (r as int - x) % TWO_32 == 0
    ensures -0x8000_0000 <= x < 0x8000_0000 ==> r as int == x
  {
    ((x + 0x8000_0000) % TWO_32 - 0x8000_0000) as int32
  }

  /** Java `a - b` on `int`. */
  function Sub(a: int32, b: int32): int32 {
    Wrap(a as int - b as int)
  }

  /** Java `a * b` on `int`. */
  function Mul(a: int32, b: int32): int32 {
    Wrap(a as int * b as int)
  }

  /** Java `Math.min(int, int)`. */
  function Min(a: int32, b: int32): (r: int32)
    ensures r <= a && r <= b
    ensures r == a || r == b
  {
    if a <= b then a else b
  }

  /** The bit pattern of `x` read as an unsigned number. */
  function Unsigned(x: int32): (u: nat)
    ensures u < TWO_32
    ensures (u - x as int) % TWO_32 == 0
  {
    x as int % TWO_32
  }

  function Pow2(k: nat): (r: nat)
    ensures r > 0
  {
    if k == 0 then 1 else 2 * Pow2(k - 1)
  }

  /** Bitwise conjunction of two unsigned numbers, bit by bit from the lowest. */
  function BitAnd(a: nat, b: nat): nat
    decreases a
  {
    if a == 0 || b == 0 then 0
    else 2 * BitAnd(a / 2, b / 2) + (if a % 2 == 1 && b % 2 == 1 then 1 else 0)
  }

  /** Java `a & b` on `int`: the conjunction of the two bit patterns, read back
      as a two's-complement `int`. */
  function And(a: int32, b: int32): int32 {
    Wrap(BitAnd(Unsigned(a), Unsigned(b)))
  }

  /** Division with remainder has one answer. */
  lemma ModUnique(a: int, d: int, q: int, s: int)
    requires d > 0 && 0 <= s < d && a == q * d + s
    ensures a % d == s
  {
    var q', s' := a / d, a % d;
    var e := q - q';
    assert e * d == s' - s by {
      assert q * d - q' * d == (q - q') * d;
    }
    if e >= 1 {
      assert e * d == d + (e - 1) * d;
    } else if e <= -1 {
      assert -e * d == d + (-e - 1) * d;
    }
  }

  /** Adding a multiple of the divisor leaves the remainder alone. */
  lemma ModAddMultiple(a: int, c: int, d: int)
    requires d > 0
    ensures (a + c * d) % d == a % d
  {
    assert a == (a / d) * d + a % d;
    assert a + c * d == (a / d + c) * d + a % d;
    ModUnique(a + c * d, d, a / d + c, a % d);
  }

  /** The remainder modulo 2m is built from the remainder of the halved number
      modulo m and the lowest bit. */
  lemma ModDouble(a: nat, m: nat)
    requires m > 0
    ensures a % (2 * m) == 2 * ((a / 2) % m) + a % 2
  {
    var q, r := (a / 2) / m, (a / 2) % m;
    assert a / 2 == q * m + r;
    assert a == q * (2 * m) + (2 * r + a % 2);
    ModUnique(a, 2 * m, q, 2 * r + a % 2);
  }

  /** Masking with k low one-bits keeps the remainder modulo 2^k. */
  lemma {:induction false} BitAndLowMask(a: nat, k: nat)
    ensures BitAnd(a, Pow2(k) - 1) == a % Pow2(k)
  {
    if k == 0 || a == 0 {
    } else {
      var m := Pow2(k - 1);
      assert Pow2(k) - 1 == 2 * (m - 1) + 1;
      assert (Pow2(k) - 1) / 2 == m - 1 && (Pow2(k) - 1) % 2 == 1;
      BitAndLowMask(a / 2, k - 1);
      ModDouble(a, m);
    }
  }

  /** Java `x & 31` is the Euclidean remainder of `x` modulo 32, for negative
      `x` as well. */
  lemma AndThirtyOne(x: int32)
    ensures And(x, 31) as int == x as int % 32
  {
    var u := Unsigned(x);
    assert Unsigned(31) == 31;
    BitAndLowMask(u, 5);
    assert BitAnd(u, 31) == u % 32;
    assert x as int == u + (x as int / TWO_32) * TWO_32;
    assert (x as int / TWO_32) * TWO_32 == ((x as int / TWO_32) * 0x800_0000) * 32;
    ModAddMultiple(u, (x as int / TWO_32) * 0x800_0000, 32);
  }
}
