/** Values shared by every part of the model. */
module Base {

  /** A nullable value: `null` in the source is `None`. */
  datatype Option<T> = None | Some(value: T) {
    /** The value, or `default` when absent (the object-spread fallback). */
    function GetOr(default: T): T {
      if Some? then value else default
    }
  }

  /**
   * A calendar day as `Date.prototype.toDateString` renders it. The model only
   * ever compares two days for equality, so the text itself is opaque.
   */
  type Day = string

  /** `Math.max` on integers. */
  function Max(a: int, b: int): (r: int)
    ensures r >= a && r >= b && (r == a || r == b)
  {
    if a >= b then a else b
  }

  /** `Math.min` on integers. */
  function Min(a: int, b: int): (r: int)
    ensures r <= a && r <= b && (r == a || r == b)
  {
    if a <= b then a else b
  }

  /** `Math.max` on reals. */
  function MaxReal(a: real, b: real): (r: real)
    ensures r >= a && r >= b && (r == a || r == b)
  {
    if a >= b then a else b
  }

  /** `Math.min` on reals. */
  function MinReal(a: real, b: real): (r: real)
    ensures r <= a && r <= b && (r == a || r == b)
  {
    if a <= b then a else b
  }

  /** The character of a decimal digit, as a number prints in a string. */
  function DigitChar(d: nat): (c: char)
    requires d < 10
    ensures IsDigit(c) && (c as int) - ('0' as int) == d
  {
    "0123456789"[d]
  }

  predicate IsDigit(c: char) {
    '0' <= c <= '9'
  }

  predicate AllDigits(s: string) {
    forall k :: 0 <= k < |s| ==> IsDigit(s[k])
  }
}
