/** The parts of the Arduino core the controller relies on: the integer widths
    of the AVR toolchain, `map`, `constrain`, and unsigned 32-bit subtraction
    as used on `millis()` timestamps. */
module Arduino {

  /** `int` on an AVR board is 16 bits wide. */
  type Int16 = x: int | -0x8000 <= x <= 0x7FFF

  const LONG_MIN: int := -0x8000_0000
  const LONG_MAX: int := 0x7FFF_FFFF

  /** `long` is 32 bits wide. */
  predicate InLong(x: int) {
    LONG_MIN <= x <= LONG_MAX
  }

  /** `unsigned long`, the type of `millis()`, counts modulo 2^32. */
  const ULONG_MODULUS: int := 0x1_0000_0000
  type ULong = x: int | 0 <= x < 0x1_0000_0000

  /** C integer division, which truncates toward zero (Dafny's `/` floors). */
  function TruncDiv(n: int, d: int): (q: int)
    requires d > 0
    ensures n >= 0 ==> q == n / d
    ensures n < 0 ==> q <= 0
  {
    if n >= 0 then n / d else -((-n) / d)
  }

  /** Truncation is symmetric about zero, which is what sets it apart from flooring. */
  lemma TruncDivOdd(n: int, d: int)
    requires d > 0
    ensures TruncDiv(-n, d) == -TruncDiv(n, d)
  {
    if n == 0 {
      assert 0 / d == 0;
    }
  }

  lemma MulMonotone(x: int, y: int, d: int)
    requires x <= y && d >= 0
    ensures x * d <= y * d
  {
    assert y * d - x * d == (y - x) * d;
  }

  lemma {:induction false} FloorDivMonotone(a: int, b: int, d: int)
    requires a <= b && d > 0
    ensures a / d <= b / d
  {
    var qa, qb := a / d, b / d;
    assert a == qa * d + a % d && 0 <= a % d;
    assert b == qb * d + b % d && b % d < d;
    if qa > qb {
      MulMonotone(qb + 1, qa, d);
    }
  }

  lemma {:induction false} TruncDivMonotone(a: int, b: int, d: int)
    requires a <= b && d > 0
    ensures TruncDiv(a, d) <= TruncDiv(b, d)
  {
    if a >= 0 {
      FloorDivMonotone(a, b, d);
    } else if b < 0 {
      FloorDivMonotone(-b, -a, d);
    } else {
      DivNonNegative(b, d);
    }
  }

  lemma DivNonNegative(n: int, d: int)
    requires n >= 0 && d > 0
    ensures n / d >= 0
  {
  }

  lemma {:induction false} DivOfMultiple(k: int, d: int)
    requires k >= 0 && d > 0
    ensures (d * k) / d == k
  {
    var q, r := (d * k) / d, (d * k) % d;
    assert d * k == q * d + r && 0 <= r < d;
    assert d * (k - q) == r;
    if k - q >= 1 {
      MulMonotone(1, k - q, d);
    } else if k - q <= -1 {
      MulMonotone(k - q, -1, d);
    }
  }

  /** Arduino's `map(x, in_min, in_max, out_min, out_max)`:
      `(x - in_min) * (out_max - out_min) / (in_max - in_min) + out_min`
      evaluated on `long` with C division. Callers pass an increasing input range. */
  function Map(x: int, inMin: int, inMax: int, outMin: int, outMax: int): (r: int)
    requires inMin < inMax
    ensures x == inMin ==> r == outMin
    ensures x == inMax ==> r == outMax
  {
    var span := inMax - inMin;
    var n := (x - inMin) * (outMax - outMin);
    TruncDivExact(outMax - outMin, span);
    assert x == inMax ==> n == span * (outMax - outMin);
    TruncDiv(n, span) + outMin
  }

  /** Dividing a multiple of `d` by `d` is exact, whatever the sign. */
  lemma TruncDivExact(k: int, d: int)
    requires d > 0
    ensures TruncDiv(d * k, d) == k
  {
    if k >= 0 {
      DivOfMultiple(k, d);
    } else {
      DivOfMultiple(-k, d);
      assert -(d * k) == d * -k;
    }
  }

  /** Arduino's `constrain(amt, low, high)` macro. */
  function Constrain(amt: int, low: int, high: int): (r: int)
    ensures low <= high ==> low <= r <= high
    ensures low <= amt <= high ==> r == amt
    ensures amt < low ==> r == low
    ensures low <= high < amt ==> r == high
  {
    if amt < low then low else if amt > high then high else amt
  }

  /** `a - b` on `unsigned long`: the result wraps modulo 2^32. */
  function ULongSub(a: ULong, b: ULong): (r: ULong)
    ensures (b + r) % ULONG_MODULUS == a
  {
    (a - b) % ULONG_MODULUS
  }

  /** The value a 32-bit millisecond counter shows `t` ms after it showed `start`. */
  function ULongAdvance(start: ULong, t: nat): ULong {
    (start + t) % ULONG_MODULUS
  }

  /** Unsigned subtraction recovers any elapsed time shorter than one full turn
      of the counter, even when the counter wrapped in between. */
  lemma {:induction false} ULongSubRecoversElapsed(start: ULong, t: nat)
    requires t < ULONG_MODULUS
    ensures ULongSub(ULongAdvance(start, t), start) == t
  {
  }
}
