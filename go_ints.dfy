/**
 * Go's fixed-width integers on a 64-bit platform, the conversions between
 * them that the source performs, and `strconv.Itoa`.
 */
module GoInts {

  const TWO_31: int := 0x8000_0000
  const TWO_32: int := 0x1_0000_0000
  const TWO_63: int := 0x8000_0000_0000_0000
  const TWO_64: int := 0x1_0000_0000_0000_0000

  /** Go's `int` and `int64` (64 bits on every platform the chain runs on). */
  type Int64 = x: int | -0x8000_0000_0000_0000 <= x < 0x8000_0000_0000_0000

  type Int32 = x: int | -0x8000_0000 <= x < 0x8000_0000

  type Uint64 = x: int | 0 <= x < 0x1_0000_0000_0000_0000

  predicate FitsInt32(x: int)
  {
    -TWO_31 <= x < TWO_31
  }

  /** Go's conversion `int32(x)`: keeps the low 32 bits, read in two's complement. */
  function ToInt32(x: int): (r: Int32)
    ensures (x - r) % TWO_32 == 0
    ensures FitsInt32(x) ==> r == x
  {
    var low := x % TWO_32;
    if low < TWO_31 then low else low - TWO_32
  }

  /** Go's conversion `uint64(x)` of a 64-bit signed integer. */
  function ToUint64(x: Int64): (r: Uint64)
    ensures (x - r) % TWO_64 == 0
  {
    if x >= 0 then x else x + TWO_64
  }

  /** Go's conversion `int(u)` of a `uint64` on a 64-bit platform. */
  function ToInt64(u: Uint64): (r: Int64)
    ensures (u - r) % TWO_64 == 0
  {
    if u < TWO_63 then u else u - TWO_64
  }

  /** Going through `uint64` and back loses nothing. */
  lemma SignedUnsignedRoundTrip(x: Int64, u: Uint64)
    ensures ToInt64(ToUint64(x)) == x
    ensures ToUint64(ToInt64(u)) == u
  {
  }

  /** Negative ids map to the upper half of the unsigned range. */
  lemma ToUint64Order(a: Int64, b: Int64)
    requires 0 <= a && b < 0
    ensures ToUint64(a) < TWO_63 <= ToUint64(b)
  {
  }

  /** Go's `%` truncates toward zero: the remainder takes the sign of the dividend. */
  function GoRem(a: int, b: int): (r: int)
    requires b != 0
    ensures a >= 0 ==> 0 <= r < (if b > 0 then b else -b)
    ensures a < 0 ==> -(if b > 0 then b else -b) < r <= 0
    ensures (a - r) % b == 0
  {
    var m := if b > 0 then b else -b;
    var r := if a >= 0 then a % m else -((-a) % m);
    MultipleOfDivisor(a - r, b, if a >= 0 then (if b > 0 then a / m else -(a / m)) else (if b > 0 then -((-a) / m) else (-a) / m));
    r
  }

  /** A multiple of `b` leaves no remainder. */
  lemma MultipleOfDivisor(x: int, b: int, k: int)
    requires b != 0 && x == b * k
    ensures x % b == 0
  {
    var d := k - x / b;
    assert x % b == b * d;
    if d > 0 {
      assert b * d >= b * 1 || b * d <= b * 1;
    }
  }

  /** The remainder is zero exactly when the divisor divides the dividend. */
  lemma GoRemZeroIffDivides(a: int, b: int)
    requires b != 0
    ensures GoRem(a, b) == 0 <==> a % b == 0
  {
    var r := GoRem(a, b);
    if a % b == 0 {
      var q1, q2 := a / b, (a - r) / b;
      assert a == b * q1 && a - r == b * q2;
      assert r == b * (q1 - q2);
      SmallMultipleIsZero(r, b, q1 - q2);
    }
  }

  /** A multiple of `b` smaller in magnitude than `b` is zero. */
  lemma SmallMultipleIsZero(r: int, b: int, k: int)
    requires b != 0 && r == b * k
    requires -(if b > 0 then b else -b) < r < (if b > 0 then b else -b)
    ensures r == 0
  {
    if k != 0 {
      MultipleMagnitude(b, k);
    }
  }

  /** A non-zero multiple of `b` is at least `b` in magnitude. */
  lemma MultipleMagnitude(b: int, k: int)
    requires b != 0 && k != 0
    ensures var m := if b > 0 then b else -b; b * k >= m || b * k <= -m
  {
    var m := if b > 0 then b else -b;
    var n := if k > 0 then k else -k;
    AtLeastItself(m, n);
    assert b * k == m * n || b * k == -(m * n);
  }

  lemma {:induction false} AtLeastItself(m: int, n: int)
    requires m > 0 && n >= 1
    ensures m * n >= m
    decreases n
  {
    if n > 1 {
      AtLeastItself(m, n - 1);
      assert m * n == m * (n - 1) + m;
    }
  }

  function DigitChar(d: nat): (c: char)
    requires d < 10
    ensures '0' <= c <= '9'
  {
    (48 + d) as char
  }

  /** The decimal digits of `n`, without leading zeros. */
  function Digits(n: nat): (s: string)
    ensures |s| >= 1
    ensures forall i :: 0 <= i < |s| ==> '0' <= s[i] <= '9'
    ensures |s| > 1 ==> s[0] != '0'
  {
    if n < 10 then [DigitChar(n)] else Digits(n / 10) + [DigitChar(n % 10)]
  }

  /** `strconv.Itoa`. */
  function Itoa(n: int): (s: string)
    ensures |s| >= 1
  {
    if n < 0 then "-" + Digits(-n) else Digits(n)
  }

  /** The value of a string of decimal digits. */
  function DigitsValue(s: string): nat
    requires forall i :: 0 <= i < |s| ==> '0' <= s[i] <= '9'
  {
    if s == [] then 0 else DigitsValue(s[..|s| - 1]) * 10 + (s[|s| - 1] as int - 48)
  }

  lemma {:induction false} DigitsRoundTrip(n: nat)
    ensures DigitsValue(Digits(n)) == n
  {
    if n >= 10 {
      DigitsRoundTrip(n / 10);
      var s := Digits(n);
      assert s[..|s| - 1] == Digits(n / 10);
    }
  }

  /** Distinct ids give distinct event attribute values. */
  lemma DigitsInjective(a: nat, b: nat)
    requires Digits(a) == Digits(b)
    ensures a == b
  {
    DigitsRoundTrip(a);
    DigitsRoundTrip(b);
  }

  /** Distinct ids give distinct event attribute values. */
  lemma ItoaInjective(a: int, b: int)
    requires Itoa(a) == Itoa(b)
    ensures a == b
  {
    var sa, sb := Itoa(a), Itoa(b);
    if a < 0 && b < 0 {
      assert sa[1..] == Digits(-a) && sb[1..] == Digits(-b);
      DigitsInjective(-a, -b);
    } else if a >= 0 && b >= 0 {
      DigitsInjective(a, b);
    }
  }

}
