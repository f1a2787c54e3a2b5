/** Small shared vocabulary: optional values, JavaScript's `slice(0, end)`,
    and clamping on reals. */
module Basics {

  datatype Option<+T> = None | Some(value: T) {
    /** The value, or `default` when absent (JavaScript's `x ?? default`). */
    function GetOr(default: T): T {
      match this
      case Some(v) => v
      case None => default
    }
  }

  datatype Result<+R, +E> = Ok(value: R) | Err(error: E)

  /** Number of elements `Array.prototype.slice(0, end)` keeps from an array of
      length `n`: a negative `end` counts back from the end of the array. */
  function SliceLength(n: nat, end: int): (k: nat)
    ensures k <= n
    ensures end >= 0 ==> k == if end <= n then end else n
    ensures end < 0 ==> k == if n + end >= 0 then n + end else 0
  {
    if end < 0 then (if n + end >= 0 then n + end else 0)
    else if end <= n then end else n
  }

  /** `s.slice(0, end)`: the prefix of `s` that JavaScript keeps. */
  function Slice<T>(s: seq<T>, end: int): (r: seq<T>)
    ensures |r| == SliceLength(|s|, end)
    ensures r <= s
  {
    s[..SliceLength(|s|, end)]
  }

  function MinReal(a: real, b: real): real { if a <= b then a else b }
  function MaxReal(a: real, b: real): real { if a >= b then a else b }

  /** `Math.max(lo, Math.min(hi, x))`. */
  function Clamp(lo: real, hi: real, x: real): (r: real)
    requires lo <= hi
    ensures lo <= r <= hi
    ensures lo <= x <= hi ==> r == x
  {
    MaxReal(lo, MinReal(hi, x))
  }

  /** A share of a positive whole lies in [0, 1]. */
  lemma ShareBounds(a: real, b: real)
    requires 0.0 <= a <= b && b > 0.0
    ensures 0.0 <= a / b <= 1.0
    ensures a / b == 1.0 <==> a == b
    ensures a / b == 0.0 <==> a == 0.0
  {
    var q := a / b;
    assert q * b == a;
  }

  /** Converting a product of naturals to a real. */
  lemma CastProduct(a: nat, b: nat)
    ensures (a * b) as real == a as real * b as real
  {
  }

  /** Dividing g * n by a positive n gives back g. */
  lemma DivideMultiple(g: real, n: real)
    requires n > 0.0
    ensures (g * n) / n == g
  {
  }

  /** Multiplying by a non-negative factor keeps an inequality. */
  lemma MulLe(x: real, a: real, b: real)
    requires x >= 0.0 && a <= b
    ensures x * a <= x * b
  {
  }

  /** Appending is associative. */
  lemma AppendAssoc<T>(a: seq<T>, b: seq<T>, c: seq<T>)
    ensures a + b + c == a + (b + c)
  {
  }
}
