/** Small helpers shared by every module: an Option type, the arithmetic of
    Python's `int()`, `max`/`min` clamping and `dict.get(key, 0)`. */
module Common {

  datatype Option<+T> = None | Some(value: T) {
    function GetOr(default: T): T
    {
      match this
      case Some(v) => v
      case None => default
    }
  }

  /** Python's `int(x)` on a float: truncation toward zero. */
  function Trunc(x: real): (r: int)
    ensures x >= 0.0 ==> r >= 0 && r as real <= x < r as real + 1.0
    ensures x < 0.0 ==> r <= 0 && r as real - 1.0 < x <= r as real
  {
    if x >= 0.0 then x.Floor else -((-x).Floor)
  }

  /** Truncation is monotone: a larger value never truncates to less. */
  lemma TruncMonotone(x: real, y: real)
    requires x <= y
    ensures Trunc(x) <= Trunc(y)
  {
  }

  /** Scaling by a non-negative factor keeps order. */
  lemma MulLe(a: real, x: real, y: real)
    requires a >= 0.0 && x <= y
    ensures a * x <= a * y
  {
  }

  /** Scaling by a positive factor keeps strict order. */
  lemma MulLt(a: real, x: real, y: real)
    requires a > 0.0 && x < y
    ensures a * x < a * y
  {
    assert a * y - a * x == a * (y - x);
  }

  function MaxR(a: real, b: real): real { if a >= b then a else b }
  function MinR(a: real, b: real): real { if a <= b then a else b }
  function Max(a: int, b: int): int { if a >= b then a else b }
  function Min(a: int, b: int): int { if a <= b then a else b }

  /** `max(lo, min(hi, x))`, the clamp the source writes out by hand. */
  function ClampR(x: real, lo: real, hi: real): (r: real)
    requires lo <= hi
    ensures lo <= r <= hi
    ensures lo <= x <= hi ==> r == x
    ensures x < lo ==> r == lo
    ensures x > hi ==> r == hi
  {
    MaxR(lo, MinR(hi, x))
  }

  /** `d.get(k, 0)` on an integer-valued dictionary. */
  function Count(m: map<string, int>, k: string): int
  {
    if k in m then m[k] else 0
  }

  /** Python's `str()` of an integer: its decimal digits, after a minus
      sign when negative. */
  function IntString(i: int): (s: string)
    ensures |s| >= 1
    ensures i >= 0 ==> IsDigits(s)
    decreases if i < 0 then 1 - i else i
  {
    if i < 0 then "-" + IntString(-i)
    else if i < 10 then [(('0' as int) + i) as char]
    else IntString(i / 10) + IntString(i % 10)
  }

  predicate IsDigits(s: string)
  {
    forall k :: 0 <= k < |s| ==> '0' <= s[k] <= '9'
  }

  /** The number a string of decimal digits denotes. */
  function DigitsValue(s: string): int
    requires IsDigits(s)
  {
    if s == [] then 0 else DigitsValue(s[..|s| - 1]) * 10 + (s[|s| - 1] as int - '0' as int)
  }

  /** Reading back the digits of a non-negative number gives the number. */
  lemma {:induction false} IntStringValue(n: int)
    requires n >= 0
    ensures DigitsValue(IntString(n)) == n
    decreases n
  {
    if n >= 10 {
      var hi, lo := IntString(n / 10), IntString(n % 10);
      IntStringValue(n / 10);
      assert (hi + lo)[..|hi + lo| - 1] == hi;
    }
  }
}
