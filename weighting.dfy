/**
 * The joint-limit avoidance weights that JointPathEx::calcJacobianInverseNullspace
 * feeds into the weighted SR-inverse: the Chang-Dubey limit cost of each joint
 * and the hysteresis rule that turns a cost into a diagonal weight.
 */
module JointLimitWeighting {
  import opened NumericConstants
  import opened RealArith

  /** deg2rad(1): the margin kept from each limit when evaluating the cost. */
  const Margin: real := PI / 180.0

  /** eps_eq(a, b, deg2rad(1)). */
  predicate Near(a: real, b: real)
  {
    AbsReal(a - b) <= Margin
  }

  /** The angle at which the cost is evaluated: an angle within one degree of
      exactly one limit is moved to one degree inside that limit. Afterwards
      the angle is either within one degree of both limits or equal to
      neither, so the cost's denominator cannot vanish. */
  function AdjustedAngle(angle: real, lower: real, upper: real): (a: real)
    ensures (Near(a, upper) && Near(a, lower)) || (a != upper && a != lower)
    ensures !Near(angle, upper) && !Near(angle, lower) ==> a == angle
  {
    if Near(angle, upper) && Near(angle, lower) then angle
    else if Near(angle, upper) then upper - Margin
    else if Near(angle, lower) then lower + Margin
    else angle
  }

  lemma SquarePositive(x: real)
    requires x != 0.0
    ensures x * x > 0.0
  {
  }

  /** The gradient magnitude |span^2 * offset / (4 du^2 dl^2)|, where du and
      dl are the distances to the upper and lower limit (the factor offset is
      taken out of the quotient, which is the same value on exact reals). */
  function Gradient(span: real, offset: real, du: real, dl: real): (g: real)
    requires du != 0.0 && dl != 0.0
    ensures 0.0 <= g
    ensures offset == 0.0 ==> g == 0.0
  {
    SquarePositive(du);
    SquarePositive(dl);
    AbsReal(offset * (span * span / (4.0 * (du * du) * (dl * dl))))
  }

  /** The magnitude of the gradient of the Chang-Dubey performance criterion
      (jmax - jmin)^2 (2q - jmax - jmin) / (4 (jmax - q)^2 (q - jmin)^2) at
      the adjusted angle, or DBL_MAX when the angle is within one degree of
      both limits. The isnan guard of the source never fires on exact reals:
      the denominator is non-zero whenever the formula is evaluated. */
  function LimitCost(angle: real, lower: real, upper: real): (r: real)
    ensures 0.0 <= r
    ensures var a := AdjustedAngle(angle, lower, upper);
      Near(a, upper) && Near(a, lower) ==> r == DBL_MAX
  {
    var a := AdjustedAngle(angle, lower, upper);
    if Near(a, upper) && Near(a, lower) then DBL_MAX
    else Gradient(upper - lower, 2.0 * a - upper - lower, upper - a, a - lower)
  }

  /** At the centre of a range wider than two degrees the criterion is
      stationary: the cost is zero. */
  lemma CostZeroAtCentre(lower: real, upper: real)
    requires upper - lower > 2.0 * Margin
    ensures LimitCost((lower + upper) / 2.0, lower, upper) == 0.0
  {
    var c := (lower + upper) / 2.0;
    assert !Near(c, upper) && !Near(c, lower);
    assert 2.0 * c - upper - lower == 0.0;
  }

  /** A joint whose limits are less than one degree apart is always at the
      maximal cost. */
  lemma NarrowRangeHasMaximalCost(angle: real, lower: real, upper: real)
    requires lower <= upper && upper - lower <= Margin
    requires lower <= angle <= upper
    ensures LimitCost(angle, lower, upper) == DBL_MAX
  {
  }

  /** The diagonal weight of one joint: when the cost has not decreased since
      the previous evaluation the joint's optional weight is divided by
      1 + cost, otherwise the joint gets its full optional weight. */
  function HysteresisWeight(cost: real, previous: real, optional: real): (w: real)
    requires 0.0 <= cost
    ensures cost < previous ==> w == optional
    ensures previous <= cost ==> w * (1.0 + cost) == optional
    ensures 0.0 < optional ==> 0.0 < w <= optional
    ensures 0.0 < optional && previous <= cost && 0.0 < cost ==> w < optional
  {
    if cost - previous >= 0.0 then optional * (1.0 / (1.0 + cost)) else optional * 1.0
  }
}
