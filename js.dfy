/**
 * The fragment of JavaScript number semantics the chart relies on:
 * IEEE doubles seen as reals extended with the two infinities and NaN,
 * comparison, `Number.isFinite`, `Math.ceil`, `Math.abs` and the
 * remainder operator `%` on integer operands.
 *
 * Rounding is not modelled: a finite number is an exact real.
 */
module Js {

  /** `undefined` or a value. */
  datatype Option<T> = None | Some(value: T)

  /** A JavaScript number. */
  datatype Num = Finite(v: real) | PosInf | NegInf | NaN

  /** `Number.isFinite(x)`. */
  predicate IsFinite(x: Num) {
    x.Finite?
  }

  /** `a < b`; false whenever either side is NaN. */
  predicate Less(a: Num, b: Num) {
    match (a, b)
    case (NaN, _) => false
    case (_, NaN) => false
    case (Finite(x), Finite(y)) => x < y
    case (NegInf, _) => !b.NegInf?
    case (_, PosInf) => !a.PosInf?
    case _ => false
  }

  /** `a <= b` between two numbers neither of which is NaN. */
  predicate AtMost(a: Num, b: Num) {
    !a.NaN? && !b.NaN? && !Less(b, a)
  }

  /** On numbers that are not NaN, `<` is a strict total order. */
  lemma LessIsStrictTotalOrder(a: Num, b: Num, c: Num)
    requires !a.NaN? && !b.NaN? && !c.NaN?
    ensures !Less(a, a)
    ensures Less(a, b) || a == b || Less(b, a)
    ensures Less(a, b) ==> !Less(b, a)
    ensures Less(a, b) && Less(b, c) ==> Less(a, c)
  {
  }

  /** `AtMost` is reflexive and transitive on numbers that are not NaN. */
  lemma AtMostIsPreorder(a: Num, b: Num, c: Num)
    requires !a.NaN? && !b.NaN? && !c.NaN?
    ensures AtMost(a, a)
    ensures AtMost(a, b) && AtMost(b, c) ==> AtMost(a, c)
    ensures AtMost(a, b) && AtMost(b, a) ==> a == b
  {
    LessIsStrictTotalOrder(a, b, c);
    LessIsStrictTotalOrder(b, c, a);
    LessIsStrictTotalOrder(c, a, b);
  }

  /** `Math.ceil` on a finite number: the least integer not below `x`. */
  function Ceil(x: real): (r: int)
    ensures x <= r as real < x + 1.0
  {
    -((-x).Floor)
  }

  /** `Math.abs` on a finite number. */
  function Abs(x: real): (r: real)
    ensures r >= 0.0
    ensures r == x || r == -x
  {
    if x < 0.0 then -x else x
  }

  /** `Math.min` on two finite numbers. */
  function Min(a: real, b: real): (r: real)
    ensures r <= a && r <= b
    ensures r == a || r == b
  {
    if a <= b then a else b
  }

  /**
   * `a % b` for a non-negative integer dividend: NaN when `b` is zero.
   * JavaScript truncates the quotient toward zero, so the remainder takes
   * the sign of the dividend; for a dividend that is not negative this is
   * exactly Dafny's Euclidean remainder, whatever the sign of `b`.
   */
  function IntRemainder(a: nat, b: int): (r: Num)
    ensures b == 0 <==> r.NaN?
    ensures b != 0 ==> r.Finite? && 0.0 <= r.v < (if b < 0 then -b else b) as real
    ensures b != 0 ==> r.v == r.v.Floor as real && a == (a / b) * b + r.v.Floor
  {
    if b == 0 then NaN else Finite((a % b) as real)
  }
}
