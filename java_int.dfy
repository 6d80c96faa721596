/**
 * Java's fixed-width integer arithmetic, written out over Dafny's unbounded `int`:
 * the `int` and `long` ranges, two's-complement wrap-around, and division that
 * truncates toward zero.
 */
module JavaInt {

  const INT_MIN: int := -0x8000_0000
  const INT_MAX: int := 0x7FFF_FFFF
  const LONG_MIN: int := -0x8000_0000_0000_0000
  const LONG_MAX: int := 0x7FFF_FFFF_FFFF_FFFF

  /** A Java `int`. */
  type int32 = x: int | -0x8000_0000 <= x <= 0x7FFF_FFFF

  /** A Java `long`. */
  type int64 = x: int | -0x8000_0000_0000_0000 <= x <= 0x7FFF_FFFF_FFFF_FFFF

  /** The `int` that Java's 32-bit arithmetic produces for the mathematical value `x`. */
  function Wrap32(x: int): (r: int32)
    ensures (r - x) % 0x1_0000_0000 == 0
    ensures INT_MIN <= x <= INT_MAX ==> r == x
  {
    (x - INT_MIN) % 0x1_0000_0000 + INT_MIN
  }

  /** The `long` that Java's 64-bit arithmetic produces for the mathematical value `x`. */
  function Wrap64(x: int): (r: int64)
    ensures (r - x) % 0x1_0000_0000_0000_0000 == 0
    ensures LONG_MIN <= x <= LONG_MAX ==> r == x
  {
    (x - LONG_MIN) % 0x1_0000_0000_0000_0000 + LONG_MIN
  }

  /**
   * Java's `a / b` for a positive divisor: the quotient rounded toward zero, so the
   * remainder has the sign of `a` (Dafny's own `/` is Euclidean instead).
   */
  function Quot(a: int, b: int): (q: int)
    requires b > 0
    ensures 0 <= a ==> 0 <= a - q * b < b
    ensures a < 0 ==> -b < a - q * b <= 0
  {
    if a >= 0 then a / b else -((-a) / b)
  }

  /** Java's `x++` on an `int`: MAX_VALUE steps to MIN_VALUE. */
  lemma Wrap32Succ(n: int)
    ensures Wrap32(Wrap32(n) + 1) == Wrap32(n + 1)
  {
    var m := 0x1_0000_0000;
    var a, b, c := Wrap32(Wrap32(n) + 1), Wrap32(n), Wrap32(n + 1);
    var p, q, r := (a - (b + 1)) / m, (b - n) / m, (c - (n + 1)) / m;
    assert a - (b + 1) == p * m && b - n == q * m && c - (n + 1) == r * m;
    assert a - c == (p + q - r) * m;
    assert -m < a - c < m;
  }
}
