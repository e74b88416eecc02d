/** Values shared by every part of the model. */
module Common {

  /** An optional value: JavaScript's `undefined`/`null` versus a present value. */
  datatype Option<+T> = None | Some(value: T)
  {
    function GetOr(default: T): T
    {
      match this
      case Some(v) => v
      case None => default
    }
  }

  /** An optional field of `{...current, ...patch}`: the patch's value when it has one. */
  function Override<T>(patch: Option<T>, current: Option<T>): (r: Option<T>)
    ensures patch.Some? ==> r == patch
    ensures patch.None? ==> r == current
  {
    if patch.Some? then patch else current
  }

  /** A JavaScript `number`: a finite value, NaN, or one of the two infinities.
      Finite values are exact reals; IEEE-754 rounding is not modelled. */
  datatype Num = Finite(r: real) | NaN | PosInf | NegInf

  /** Math.round on a finite number: the nearest integer, halves rounded up. */
  function Round(x: real): (r: int)
    ensures (r as real) - 0.5 <= x < (r as real) + 0.5
  {
    (x + 0.5).Floor
  }

  /** A quotient by a positive real is at least c when the dividend is at least c times it. */
  lemma QuotientAtLeast(x: real, y: real, c: real)
    requires 0.0 < y && c * y <= x
    ensures c <= x / y
  {
    var q := x / y;
    assert q * y == x;
    if q < c { assert (c - q) * y > 0.0; }
  }

  /** A quotient by a positive real is at most c when the dividend is at most c times it. */
  lemma QuotientAtMost(x: real, y: real, c: real)
    requires 0.0 < y && x <= c * y
    ensures x / y <= c
  {
    var q := x / y;
    assert q * y == x;
    if q > c { assert (q - c) * y > 0.0; }
  }

  function Min(a: int, b: int): int { if a <= b then a else b }

  function Max(a: int, b: int): int { if a >= b then a else b }
}
