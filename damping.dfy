/**
 * The damping factor of the singularity-robust inverse, derived from the
 * manipulability of the chain in JointPathEx::calcJacobianInverseNullspace.
 */
module SingularityDamping {
  import opened RealArith

  /** A gain times a factor in (0, 1] stays between zero and the gain. */
  lemma ScaleWithinGain(g: real, r: real)
    requires 0.0 < r <= 1.0
    ensures 0.0 <= g ==> 0.0 <= g * r <= g
    ensures 0.0 < g ==> 0.0 < g * r
  {
  }
  lemma ScaleMonotone(g: real, a: real, b: real)
    requires 0.0 <= g && a <= b
    ensures g * a <= g * b
  {
  }
  lemma SquareMonotone(s1: real, s2: real)
    requires 0.0 < s2 <= s1
    ensures s2 * s2 <= s1 * s1
  {
    if s2 < s1 {
      var p, s := s1 - s2, s1 + s2;
      ProductPositive(p, s);
      DifferenceOfSquares(s2, s1, p, s);
    }
  }
  /** gain * s^2 for a normalised distance s in (0, 1]. */
  function Curve(gain: real, s: real): (k: real)
    requires 0.0 < s <= 1.0
    ensures 0.0 <= gain ==> 0.0 <= k <= gain
    ensures 0.0 < gain ==> 0.0 < k
  {
    ScaleWithinGain(gain, s);
    ScaleWithinGain(gain * s, s);
    gain * s * s
  }
  lemma CurveMonotone(gain: real, s1: real, s2: real)
    requires 0.0 < s2 <= s1 <= 1.0 && 0.0 <= gain
    ensures Curve(gain, s2) <= Curve(gain, s1)
  {
    SquareMonotone(s1, s2);
    ScaleMonotone(gain, s2 * s2, s1 * s1);
    assert gain * (s2 * s2) == gain * s2 * s2;
    assert gain * (s1 * s1) == gain * s1 * s1;
  }

  /** The singularity-robust damping k: zero when the manipulability is at
      least its limit, otherwise gain * (1 - m / limit)^2. */
  function Damping(manipulability: real, limit: real, gain: real): (k: real)
    requires 0.0 <= manipulability
    ensures limit <= manipulability ==> k == 0.0
    ensures 0.0 <= gain ==> 0.0 <= k <= gain
    ensures manipulability < limit && 0.0 < gain ==> 0.0 < k
  {
    if manipulability < limit then
      DivideBelowOne(manipulability, limit);
      Curve(gain, 1.0 - manipulability / limit) else 0.0
  }

  lemma DivideBelowOne(a: real, c: real)
    requires 0.0 <= a < c
    ensures 0.0 <= a / c < 1.0
  {
  }

  lemma DivideMonotone(a: real, b: real, c: real)
    requires a <= b && 0.0 < c
    ensures a / c <= b / c
  {
  }

  /** The damping grows as the chain approaches a singularity. */
  lemma DampingNonIncreasing(m1: real, m2: real, limit: real, gain: real)
    requires 0.0 <= m1 <= m2 && 0.0 <= gain
    ensures Damping(m2, limit, gain) <= Damping(m1, limit, gain)
  {
    if m2 < limit {
      DivideMonotone(m1, m2, limit);
      DivideBelowOne(m1, limit);
      DivideBelowOne(m2, limit);
      CurveMonotone(gain, 1.0 - m1 / limit, 1.0 - m2 / limit);
    }
  }
}
