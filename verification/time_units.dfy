/**
 * Integer arithmetic as Kotlin performs it on `Long`: division and remainder
 * truncate toward zero, the millisecond conversions of java.util.concurrent.TimeUnit
 * are truncating divisions, and `abs` works modulo 2^64.
 */
module TimeUnits {

  const MILLIS_PER_SECOND: int := 1000
  const MILLIS_PER_MINUTE: int := 60000
  const MILLIS_PER_HOUR: int := 3600000
  const MILLIS_PER_DAY: int := 86400000

  const LONG_MIN: int := -0x8000_0000_0000_0000
  const LONG_MAX: int := 0x7FFF_FFFF_FFFF_FFFF
  const LONG_MODULUS: int := 0x1_0000_0000_0000_0000

  /** `a / b` on Kotlin integers: the quotient rounded toward zero. */
  function Quot(a: int, b: int): (q: int)
    requires b > 0
    ensures a >= 0 ==> 0 <= q && q * b <= a < q * b + b
    ensures a <= 0 ==> q <= 0 && q * b - b < a <= q * b
  {
    if a >= 0 then a / b else -((-a) / b)
  }

  /** `a % b` on Kotlin integers: the remainder takes the sign of the dividend. */
  function Rem(a: int, b: int): (r: int)
    requires b > 0
    ensures Quot(a, b) * b + r == a
    ensures a >= 0 ==> 0 <= r < b
    ensures a <= 0 ==> -b < r <= 0
  {
    a - Quot(a, b) * b
  }

  /** On a non-negative dividend Kotlin's operators agree with the Euclidean ones. */
  lemma QuotRemNonNegative(a: int, b: int)
    requires a >= 0 && b > 0
    ensures Quot(a, b) == a / b && Rem(a, b) == a % b
  {
  }

  /** TimeUnit.MILLISECONDS.toSeconds: the whole units in ms, counted toward zero. */
  function ToSeconds(ms: int): (u: int)
    ensures ms >= 0 ==> 0 <= u && u * MILLIS_PER_SECOND <= ms < (u + 1) * MILLIS_PER_SECOND
    ensures ms <= 0 ==> u <= 0 && (u - 1) * MILLIS_PER_SECOND < ms <= u * MILLIS_PER_SECOND
  {
    Quot(ms, MILLIS_PER_SECOND)
  }

  /** TimeUnit.MILLISECONDS.toMinutes: the whole units in ms, counted toward zero. */
  function ToMinutes(ms: int): (u: int)
    ensures ms >= 0 ==> 0 <= u && u * MILLIS_PER_MINUTE <= ms < (u + 1) * MILLIS_PER_MINUTE
    ensures ms <= 0 ==> u <= 0 && (u - 1) * MILLIS_PER_MINUTE < ms <= u * MILLIS_PER_MINUTE
  {
    Quot(ms, MILLIS_PER_MINUTE)
  }

  /** TimeUnit.MILLISECONDS.toHours: the whole units in ms, counted toward zero. */
  function ToHours(ms: int): (u: int)
    ensures ms >= 0 ==> 0 <= u && u * MILLIS_PER_HOUR <= ms < (u + 1) * MILLIS_PER_HOUR
    ensures ms <= 0 ==> u <= 0 && (u - 1) * MILLIS_PER_HOUR < ms <= u * MILLIS_PER_HOUR
  {
    Quot(ms, MILLIS_PER_HOUR)
  }

  /** TimeUnit.MILLISECONDS.toDays: the whole units in ms, counted toward zero. */
  function ToDays(ms: int): (u: int)
    ensures ms >= 0 ==> 0 <= u && u * MILLIS_PER_DAY <= ms < (u + 1) * MILLIS_PER_DAY
    ensures ms <= 0 ==> u <= 0 && (u - 1) * MILLIS_PER_DAY < ms <= u * MILLIS_PER_DAY
  {
    Quot(ms, MILLIS_PER_DAY)
  }

  predicate IsLong(x: int) { LONG_MIN <= x <= LONG_MAX }

  /** Two's-complement wrap-around of an exact result into the `Long` range. */
  function WrapLong(x: int): (r: int)
    ensures IsLong(r)
    ensures (x - r) % LONG_MODULUS == 0
    ensures IsLong(x) ==> r == x
  {
    (x - LONG_MIN) % LONG_MODULUS + LONG_MIN
  }

  /** A result at most one `Long` range away from it wraps by exactly one modulus. */
  lemma WrapLongOnce(x: int)
    requires LONG_MIN - LONG_MODULUS <= x <= LONG_MAX + LONG_MODULUS
    ensures x < LONG_MIN ==> WrapLong(x) == x + LONG_MODULUS
    ensures x > LONG_MAX ==> WrapLong(x) == x - LONG_MODULUS
  {
    if x < LONG_MIN {
      assert 0 <= x - LONG_MIN + LONG_MODULUS < LONG_MODULUS;
      assert (x - LONG_MIN) % LONG_MODULUS == x - LONG_MIN + LONG_MODULUS;
    } else if x > LONG_MAX {
      assert 0 <= x - LONG_MIN - LONG_MODULUS < LONG_MODULUS;
      assert (x - LONG_MIN) % LONG_MODULUS == x - LONG_MIN - LONG_MODULUS;
    }
  }

  /** kotlin.math.abs on `Long`: negation wraps, so abs(Long.MIN_VALUE) is Long.MIN_VALUE. */
  function AbsLong(x: int): (r: int)
    requires IsLong(x)
    ensures IsLong(r)
    ensures x != LONG_MIN ==> r >= 0 && (r == x || r == -x)
    ensures x == LONG_MIN ==> r == LONG_MIN
  {
    if x < 0 then WrapLong(-x) else x
  }
}
