/**
 * Python's integer bit operations, as the INA219 driver applies them to register
 * words and bytes. Python integers are unbounded and behave as two's-complement
 * bit strings of infinite width: `x << n` is `x * 2**n`, `x >> n` is floor
 * division by `2**n`, and `&`, `|` combine the operands bit by bit.
 */
module Bits {

  function Pow2(n: nat): (p: nat)
    ensures p >= 1
  {
    if n == 0 then 1 else 2 * Pow2(n - 1)
  }

  /** `x << n`: no bit is lost, so shifting back by `n` recovers `x`. */
  function ShiftLeft(x: int, n: nat): (r: int)
    ensures ShiftRight(r, n) == x
  {
    ShiftLeftThenRight(x, n);
    x * Pow2(n)
  }

  /**
   * `x >> n`: one bit at a time, each halving rounding down, as Python's shift does.
   * The sign is kept and the magnitude never grows.
   */
  function ShiftRight(x: int, n: nat): (r: int)
    ensures 0 <= x ==> 0 <= r <= x
    ensures x < 0 ==> x <= r < 0
    decreases n
  {
    if n == 0 then x else ShiftRight(x / 2, n - 1)
  }

  lemma {:induction false} ShiftLeftThenRight(x: int, n: nat)
    ensures ShiftRight(x * Pow2(n), n) == x
    decreases n
  {
    if n > 0 {
      var p := Pow2(n - 1);
      assert x * Pow2(n) == 2 * (x * p);
      assert (x * Pow2(n)) / 2 == x * p;
      ShiftLeftThenRight(x, n - 1);
    }
  }

  /** `a | b` on non-negative operands, one bit at a time from the least significant. */
  function BitOr(a: nat, b: nat): (r: nat)
    ensures a <= r && b <= r
    ensures r <= a + b
    decreases a + b
  {
    if a == 0 then b
    else if b == 0 then a
    else 2 * BitOr(a / 2, b / 2) + (if a % 2 == 1 || b % 2 == 1 then 1 else 0)
  }

  /**
   * `x & mask` for any integer `x` and a non-negative mask. Halving a negative
   * `x` rounds down and its remainder is 0 or 1, so a negative `x` shows its
   * infinite run of leading ones, as in Python.
   */
  function BitAnd(x: int, mask: nat): (r: nat)
    ensures r <= mask
    decreases mask
  {
    if mask == 0 then 0
    else 2 * BitAnd(x / 2, mask / 2) + (if x % 2 == 1 && mask % 2 == 1 then 1 else 0)
  }

  /** Or-ing a value into the zero bits below a left shift is addition. */
  lemma {:induction false} OrBelowShift(a: nat, b: nat, k: nat)
    requires b < Pow2(k)
    ensures BitOr(a * Pow2(k), b) == a * Pow2(k) + b
  {
    if k == 0 {
      assert b == 0;
    } else {
      var half := a * Pow2(k - 1);
      assert a * Pow2(k) == 2 * half;
      if a != 0 && b != 0 {
        OrBelowShift(a, b / 2, k - 1);
      }
    }
  }

  /**
   * A shift right and a mask split an integer, negative ones included:
   * `x == (x >> k) * 2**k + (x & (2**k - 1))`, the masked part below `2**k`.
   */
  lemma {:induction false} ShiftAndMask(x: int, k: nat)
    ensures BitAnd(x, Pow2(k) - 1) < Pow2(k)
    ensures x == ShiftRight(x, k) * Pow2(k) + BitAnd(x, Pow2(k) - 1)
    decreases k
  {
    if k > 0 {
      ShiftAndMask(x / 2, k - 1);
      ShiftAndMaskStep(x, k);
    }
  }

  /** The inductive step of ShiftAndMask, from the split of `x / 2` to that of `x`. */
  lemma ShiftAndMaskStep(x: int, k: nat)
    requires k > 0
    requires BitAnd(x / 2, Pow2(k - 1) - 1) < Pow2(k - 1)
    requires x / 2 == ShiftRight(x / 2, k - 1) * Pow2(k - 1) + BitAnd(x / 2, Pow2(k - 1) - 1)
    ensures BitAnd(x, Pow2(k) - 1) < Pow2(k)
    ensures x == ShiftRight(x, k) * Pow2(k) + BitAnd(x, Pow2(k) - 1)
  {
    var p := Pow2(k - 1);
    AndOddMask(x, p);
    assert Pow2(k) == 2 * p && Pow2(k) - 1 == 2 * p - 1;
    Recombine(x, ShiftRight(x / 2, k - 1), BitAnd(x / 2, p - 1), p);
  }

  /** Putting the lowest bit back below a halved value's split. */
  lemma Recombine(x: int, s: int, b: int, p: int)
    requires x / 2 == s * p + b && 0 <= b < p
    ensures 2 * b + x % 2 < 2 * p
    ensures x == s * (2 * p) + (2 * b + x % 2)
  {
    assert s * (2 * p) == 2 * (s * p);
  }

  /** One step of `&` with a mask whose lowest bit is set. */
  lemma AndOddMask(x: int, p: nat)
    requires p >= 1
    ensures BitAnd(x, 2 * p - 1) == 2 * BitAnd(x / 2, p - 1) + x % 2
  {
    var mask := 2 * p - 1;
    assert mask / 2 == p - 1 && mask % 2 == 1;
  }

  /** A remainder is the one value in `0 .. d - 1` that leaves a multiple of `d`. */
  lemma RemainderUnique(x: int, d: int, s: int, u: int)
    requires d > 0 && 0 <= u < d && x == d * s + u
    ensures x % d == u && x / d == s
  {
    var m := x / d - s;
    assert d * m == u - x % d by {
      assert d * (x / d) + x % d == d * s + u;
    }
    if m > 0 {
      MulAtLeast(d, m);
    } else if m < 0 {
      MulAtLeast(d, -m);
    }
  }

  lemma MulAtLeast(d: int, m: int)
    requires d > 0 && m >= 1
    ensures d * m >= d
  {
    var k := m - 1;
    assert d * m == d * k + d;
  }

}
