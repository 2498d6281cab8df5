// Shared vocabulary: error results, C++ integer conversions, and the
// floating-point library functions the code calls but that are not modelled.
module Common {

  /** A C++ `throw` is modelled as an `Err` carrying the exception message. */
  datatype Result<T> = Ok(value: T) | Err(msg: string)

  /** `std::optional<T>`. */
  datatype Option<T> = None | Some(value: T)

  /** `static_cast<int>(x)` for a float: truncation toward zero. */
  function Trunc(x: real): (n: int)
    ensures 0.0 <= x ==> n as real <= x < n as real + 1.0
    ensures x < 0.0 ==> n as real - 1.0 < x <= n as real
  {
    if x >= 0.0 then x.Floor else -((-x).Floor)
  }

  /** C++ `/` on `int`: the quotient is truncated toward zero. */
  function CDiv(a: int, b: int): (q: int)
    requires b != 0
    ensures a >= 0 && b > 0 ==> q == a / b
    ensures a < 0 && b > 0 ==> q == -((-a) / b)
  {
    if (a >= 0) == (b > 0) then
      (if a >= 0 then a else -a) / (if b > 0 then b else -b)
    else
      -((if a >= 0 then a else -a) / (if b > 0 then b else -b))
  }

  /** C++ `%` on `int`: the remainder takes the sign of the dividend. */
  function CMod(a: int, b: int): (r: int)
    requires b != 0
    ensures a == CDiv(a, b) * b + r
  {
    a - CDiv(a, b) * b
  }

  function Min(a: int, b: int): int { if a < b then a else b }
  function Max(a: int, b: int): int { if a < b then b else a }
  function MinR(a: real, b: real): real { if a < b then a else b }
  function MaxR(a: real, b: real): real { if a < b then b else a }
  function AbsR(x: real): real { if x < 0.0 then -x else x }

  /** `std::clamp(x, lo, hi)` for `lo <= hi`. */
  function Clamp(x: real, lo: real, hi: real): (r: real)
    requires lo <= hi
    ensures lo <= r <= hi
    ensures lo <= x <= hi ==> r == x
  {
    if x < lo then lo else if hi < x then hi else x
  }

  /** `std::pow(b, t)` for a non-negative integer exponent. */
  function Pow(b: real, t: nat): real
  {
    if t == 0 then 1.0 else b * Pow(b, t - 1)
  }

  lemma {:induction false} PowBelowOne(b: real, t: nat)
    requires 0.0 <= b < 1.0 && t >= 1
    ensures 0.0 <= Pow(b, t) < 1.0
  {
    if t > 1 {
      PowBelowOne(b, t - 1);
      var p := Pow(b, t - 1);
      assert 0.0 <= b * p by { assert 0.0 <= b && 0.0 <= p; }
      assert b * p <= p by { assert (1.0 - b) * p >= 0.0; }
      assert Pow(b, t) == b * p;
    }
  }

  /** A product of a non-negative and a positive number is non-negative, and positive when both are. */
  lemma SignOf(x: int, y: int)
    requires x >= 0 && y > 0
    ensures x * y >= 0 && (x > 0 ==> x * y > 0)
  {}

  /** Division by a positive number is unique: a == q·b + r with 0 <= r < b fixes q and r. */
  lemma DivUnique(a: int, b: int, q: int, r: int)
    requires b > 0 && a == q * b + r && 0 <= r < b
    ensures a / b == q && a % b == r
  {
    var q' := a / b;
    var d := q - q';
    assert d * b == a % b - r;
    if d > 0 {
      AtLeastDivisor(d, b);
    } else if d < 0 {
      AtLeastDivisor(-d, b);
    }
  }

  /** A positive multiple of b is at least b. */
  lemma AtLeastDivisor(d: int, b: int)
    requires d >= 1 && b > 0
    ensures d * b >= b
  {
    SignOf(d - 1, b);
  }

  /** x mod m == x and (x + m) mod m == x for 0 <= x < m. */
  lemma ModBelow(x: int, m: int)
    requires 0 <= x < m
    ensures x % m == x && (x + m) % m == x
  {
    DivUnique(x, m, 0, x);
    DivUnique(x + m, m, 1, x);
  }

  type PositiveReal = r: real | r > 0.0 witness 1.0
  type NonNegativeReal = r: real | r >= 0.0

  /** `std::exp`: only its positivity is used. */
  const Exp: real -> PositiveReal
  /** `std::log`: left uninterpreted. */
  const Log: real -> real
  /** `std::tanh`: left uninterpreted. */
  const Tanh: real -> real
  /** `std::sqrt` on the values the code passes it: only its sign is used. */
  const Sqrt: real -> NonNegativeReal
}
