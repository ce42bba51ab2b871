/** Python's `int(x)` on a float and `min`/`max` as Python evaluates them, over exact reals. */
module Numeric {

  /** `int(x)` for a float: truncation toward zero. */
  function Trunc(x: real): (n: int)
    ensures x >= 0.0 ==> n as real <= x < n as real + 1.0
    ensures x < 0.0 ==> n as real - 1.0 < x <= n as real
  {
    if x >= 0.0 then x.Floor else -((-x).Floor)
  }

  /** `min(a, b)`: `a` unless `b` is strictly smaller. */
  function Min(a: real, b: real): (m: real)
    ensures m <= a && m <= b && (m == a || m == b)
  {
    if b < a then b else a
  }

  /** `max(a, b)`: `a` unless `b` is strictly larger. */
  function Max(a: real, b: real): (m: real)
    ensures m >= a && m >= b && (m == a || m == b)
  {
    if b > a then b else a
  }

  /** `max(lo, min(x, hi))` on integers, as the image quality is clamped. */
  function Clamp(x: int, lo: int, hi: int): (c: int)
    requires lo <= hi
    ensures lo <= c <= hi
    ensures lo <= x <= hi ==> c == x
  {
    var m := if hi < x then hi else x;
    if m < lo then lo else m
  }

  /** Truncating an exact quotient of naturals is integer division. */
  lemma TruncQuotient(a: int, b: int)
    requires a >= 0 && b > 0
    ensures Trunc(a as real / b as real) == a / b
  {
    var q, r := a / b, a % b;
    assert a == q * b + r;
    assert (a as real) / (b as real) == q as real + (r as real) / (b as real);
    assert 0.0 <= (r as real) / (b as real) < 1.0;
  }
}
