/**
 * The binary64 values the solver computes with, as far as its control logic
 * can observe them. Finite values are exact reals: rounding and overflow are
 * not modelled. The three non-finite classes are kept apart because the IK
 * step tests for them (isnan/isinf) and because the speed-ratio computation
 * treats +Inf, -Inf and NaN differently. Signed zero is not modelled: every
 * division by zero in the modelled code either has its sign removed by fabs
 * or divides by the +0 that x - x produces.
 */
module Ieee {

  datatype Double = Finite(value: real) | PosInf | NegInf | NaN

  predicate AllFinite(v: seq<Double>)
  {
    forall j :: 0 <= j < |v| ==> v[j].Finite?
  }

  /** The finite values of a vector that has passed the NaN/Inf check. */
  function Values(v: seq<Double>): (r: seq<real>)
    requires AllFinite(v)
    ensures |r| == |v| && forall j :: 0 <= j < |v| ==> v[j] == Finite(r[j])
  {
    seq(|v|, j requires 0 <= j < |v| => v[j].value)
  }

  function Lift(v: seq<real>): (r: seq<Double>)
    ensures |r| == |v| && AllFinite(r) && Values(r) == v
  {
    seq(|v|, j requires 0 <= j < |v| => Finite(v[j]))
  }

  /** Unary minus. */
  function Neg(x: Double): (r: Double)
    ensures r.Finite? <==> x.Finite?
    ensures x.Finite? ==> r.value == -x.value
  {
    match x
    case Finite(v) => Finite(-v)
    case PosInf => NegInf
    case NegInf => PosInf
    case NaN => NaN
  }

  /** fabs. */
  function Abs(x: Double): (r: Double)
    ensures r.Finite? <==> x.Finite?
    ensures r.Finite? ==> r.value >= 0.0 && (r.value == x.value || r.value == -x.value)
    ensures r != NegInf
  {
    match x
    case Finite(v) => Finite(if v < 0.0 then -v else v)
    case PosInf => PosInf
    case NegInf => PosInf
    case NaN => NaN
  }

  /** IEEE addition: Inf + (-Inf) and anything involving NaN are NaN. */
  function Add(a: Double, b: Double): (r: Double)
    ensures r.Finite? <==> a.Finite? && b.Finite?
    ensures a.Finite? && b.Finite? ==> r.value == a.value + b.value
    ensures a == NaN || b == NaN ==> r == NaN
  {
    match (a, b)
    case (Finite(x), Finite(y)) => Finite(x + y)
    case (NaN, _) => NaN
    case (_, NaN) => NaN
    case (PosInf, NegInf) => NaN
    case (NegInf, PosInf) => NaN
    case (PosInf, _) => PosInf
    case (_, PosInf) => PosInf
    case (NegInf, _) => NegInf
    case (_, NegInf) => NegInf
  }

  /** Adding zero keeps every class: a finite value, NaN and both
      infinities come back unchanged. */
  lemma AddZero(x: Double)
    ensures Add(x, Finite(0.0)) == x
  {
  }

  /** Sign of a non-NaN value: 1, 0 or -1. */
  function Sign(x: Double): int
  {
    match x
    case Finite(v) => if v > 0.0 then 1 else if v < 0.0 then -1 else 0
    case PosInf => 1
    case NegInf => -1
    case NaN => 0
  }

  /** IEEE multiplication: Inf * 0 and anything involving NaN are NaN. */
  function Mul(a: Double, b: Double): (r: Double)
    ensures r.Finite? <==> a.Finite? && b.Finite?
    ensures a.Finite? && b.Finite? ==> r.value == a.value * b.value
    ensures a == NaN || b == NaN ==> r == NaN
  {
    if a.Finite? && b.Finite? then Finite(a.value * b.value)
    else if a == NaN || b == NaN then NaN
    else if Sign(a) * Sign(b) > 0 then PosInf
    else if Sign(a) * Sign(b) < 0 then NegInf
    else NaN
  }

  /** IEEE division of a finite numerator: x/0 is signed infinity (NaN for
      0/0), x/Inf is zero. */
  function Div(x: real, d: Double): (r: Double)
    ensures d.Finite? && d.value != 0.0 ==> r == Finite(x / d.value)
    ensures (d == PosInf || d == NegInf) ==> r == Finite(0.0)
    ensures r.Finite? <==> (d.Finite? && d.value != 0.0) || d == PosInf || d == NegInf
  {
    match d
    case Finite(v) =>
      if v != 0.0 then Finite(x / v)
      else if x > 0.0 then PosInf
      else if x < 0.0 then NegInf
      else NaN
    case PosInf => Finite(0.0)
    case NegInf => Finite(0.0)
    case NaN => NaN
  }

  /** The C++ comparison `x < b` for a double x and a finite b (false on NaN). */
  predicate Less(x: Double, b: real)
  {
    match x
    case Finite(v) => v < b
    case NegInf => true
    case PosInf => false
    case NaN => false
  }

  /** The C++ comparison `x > b` for a double x and a finite b (false on NaN). */
  predicate Greater(x: Double, b: real)
  {
    match x
    case Finite(v) => v > b
    case PosInf => true
    case NegInf => false
    case NaN => false
  }
}
