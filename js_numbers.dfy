/** JavaScript number division where it matters: a quotient of exact reals
    is finite unless the divisor is zero, and then it is an infinity or NaN
    as IEEE 754 arithmetic gives it. Signed zeros are not distinguished. */
module JsNumbers {

  datatype Ratio = Finite(value: real) | PosInf | NegInf | NaN

  /** `a / b`. */
  function Divide(a: real, b: real): (r: Ratio)
    ensures r.Finite? <==> b != 0.0
    ensures r.Finite? ==> r.value * b == a
    ensures b == 0.0 ==> (r == PosInf <==> a > 0.0) && (r == NegInf <==> a < 0.0) && (r == NaN <==> a == 0.0)
  {
    if b != 0.0 then Finite(a / b)
    else if a > 0.0 then PosInf
    else if a < 0.0 then NegInf
    else NaN
  }

  /** `r * k` for a positive constant `k`. */
  function Scale(r: Ratio, k: real): (s: Ratio)
    requires k > 0.0
    ensures s.Finite? <==> r.Finite?
    ensures r.Finite? ==> s.value == r.value * k
    ensures !r.Finite? ==> s == r
  {
    if r.Finite? then Finite(r.value * k) else r
  }

  /** `r > c`: false whenever `r` is NaN. */
  predicate GreaterThan(r: Ratio, c: real) {
    match r
    case Finite(x) => x > c
    case PosInf => true
    case NegInf => false
    case NaN => false
  }

  /** `Math.min(r, c)`: NaN stays NaN, +Infinity gives `c`. */
  function Min(r: Ratio, c: real): (m: Ratio)
    ensures m.NaN? <==> r.NaN?
    ensures m.NegInf? <==> r.NegInf?
    ensures !m.PosInf?
    ensures m.Finite? ==> m.value <= c && (m.value == c || (r.Finite? && m.value == r.value))
    ensures r.Finite? ==> m.Finite? && m.value == if r.value < c then r.value else c
  {
    match r
    case Finite(x) => Finite(if x < c then x else c)
    case PosInf => Finite(c)
    case NegInf => NegInf
    case NaN => NaN
  }
}
