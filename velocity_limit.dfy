/**
 * The velocity saturation of one IK step (JointPathEx.cpp, lines 283-306):
 * every joint j gets a speed ratio that would bring dq(j) into
 * [lvlimit*dt, uvlimit*dt], the smallest one (clamped at 0) is kept, and the
 * whole vector is multiplied by it, so the direction of the step survives.
 * The functions here specify that computation over a vector of doubles; the
 * loops that perform it live in IKSolver.JointPathEx.SaturateVelocity.
 */
module VelocityLimit {
  import opened Ieee
  import opened RealArith

  /** speed_ratio for one joint, with lo = lvlimit*dt and hi = uvlimit*dt. */
  function JointRatio(d: Double, lo: real, hi: real): (r: Double)
    ensures r != NegInf && (r.Finite? ==> r.value >= 0.0)
    ensures d.Finite? && lo <= d.value <= hi ==> r == Finite(1.0)
    ensures d.Finite? && d.value < lo && lo <= 0.0 ==> r == Finite(lo / d.value)
    ensures d.Finite? && lo <= d.value && d.value > hi && hi >= 0.0 ==> r == Finite(hi / d.value)
    ensures d == NaN ==> r == Finite(1.0)
    ensures d == PosInf || d == NegInf ==> r == Finite(0.0)
  {
    if Less(d, lo) then Abs(Div(lo, d))
    else if Greater(d, hi) then Abs(Div(hi, d))
    else Finite(1.0)
  }

  /** std::max(std::min(m, r), 0.0), with std::min(a, b) = (b < a) ? b : a. */
  function Combine(m: real, r: Double): (c: real)
    ensures 0.0 <= c
    ensures 0.0 <= m ==> c <= m
    ensures r.Finite? && 0.0 <= r.value && 0.0 <= m ==> c == MinReal(m, r.value)
    ensures r == PosInf || r == NaN ==> c == MaxReal(m, 0.0)
  {
    if Less(r, m) then
      match r
      case Finite(v) => MaxReal(v, 0.0)
      case _ => 0.0 // only -Inf is below m here, and std::max(-Inf, 0.0) is 0.0
    else MaxReal(m, 0.0)
  }

  /** One velocity window per joint of the candidate vector. */
  predicate Shaped(dq: seq<Double>, lo: seq<real>, hi: seq<real>)
  {
    |lo| == |dq| && |hi| == |dq|
  }

  /** Every joint's velocity window contains 0 (lvlimit <= 0 <= uvlimit and
      dt >= 0 give this). */
  predicate StraddleZero(lo: seq<real>, hi: seq<real>)
    requires |lo| == |hi|
  {
    forall j :: 0 <= j < |lo| ==> lo[j] <= 0.0 <= hi[j]
  }

  /** c * x lies in the window [lo, hi]. */
  predicate ScaledInto(c: real, x: real, lo: real, hi: real)
  {
    lo <= c * x <= hi
  }

  /** min_speed_ratio after the loop has visited joints 0 .. k-1. */
  function RatioOver(dq: seq<Double>, lo: seq<real>, hi: seq<real>, k: nat): (m: real)
    requires Shaped(dq, lo, hi) && k <= |dq|
    ensures 0.0 <= m <= 1.0
    decreases k
  {
    if k == 0 then 1.0
    else Combine(RatioOver(dq, lo, hi, k - 1), JointRatio(dq[k - 1], lo[k - 1], hi[k - 1]))
  }

  /** The common speed ratio of the whole vector. */
  function SpeedRatio(dq: seq<Double>, lo: seq<real>, hi: seq<real>): (m: real)
    requires Shaped(dq, lo, hi)
    ensures 0.0 <= m <= 1.0
  {
    RatioOver(dq, lo, hi, |dq|)
  }

  /** Multiplying every component by the ratio when it is below 1: finite
      components are scaled by one common factor, non-finite ones stay
      non-finite. */
  function Scaled(dq: seq<Double>, ratio: real): (r: seq<Double>)
    ensures |r| == |dq|
    ensures forall j :: 0 <= j < |dq| ==> (r[j].Finite? <==> dq[j].Finite?)
    ensures ratio < 1.0 ==> forall j :: 0 <= j < |dq| && dq[j].Finite? ==> r[j].value == ratio * dq[j].value
    ensures 1.0 <= ratio ==> r == dq
  {
    if ratio < 1.0 then seq(|dq|, j requires 0 <= j < |dq| => Mul(dq[j], Finite(ratio)))
    else dq
  }

  /** The saturated step: the candidate scaled by its common speed ratio.
      It passes the NaN/Inf check exactly when the candidate does. */
  function Saturated(dq: seq<Double>, lo: seq<real>, hi: seq<real>): (r: seq<Double>)
    requires Shaped(dq, lo, hi)
    ensures |r| == |dq|
    ensures AllFinite(r) <==> AllFinite(dq)
  {
    Scaled(dq, SpeedRatio(dq, lo, hi))
  }

  /** 0 <= a <= b shrinks b*x toward 0, so a window around 0 that holds b*x
      holds a*x. */
  lemma ShrinkTowardZero(a: real, b: real, x: real, lo: real, hi: real)
    requires 0.0 <= a <= b && lo <= 0.0 <= hi && lo <= b * x <= hi
    ensures lo <= a * x <= hi
  {
    if x >= 0.0 {
      assert (b - a) * x >= 0.0;
      assert 0.0 <= a * x;
    } else {
      assert (b - a) * x <= 0.0;
      assert a * x <= 0.0;
    }
  }

  /** A ratio no larger than the one JointRatio grants x brings x into its
      window. */
  lemma BelowJointRatioIsSafe(m: real, x: real, lo: real, hi: real)
    requires 0.0 <= m <= 1.0 && lo <= 0.0 <= hi
    requires JointRatio(Finite(x), lo, hi).Finite? && m <= JointRatio(Finite(x), lo, hi).value
    ensures ScaledInto(m, x, lo, hi)
  {
    if x < lo {
      var r := lo / x;
      assert r * x == lo;
      ShrinkTowardZero(m, r, x, lo, hi);
    } else if x > hi {
      var r := hi / x;
      assert r * x == hi;
      ShrinkTowardZero(m, r, x, lo, hi);
    } else {
      ShrinkTowardZero(m, 1.0, x, lo, hi);
    }
  }

  /** A factor c in [0, 1] that brings x into its window is no larger than
      the ratio JointRatio grants x. */
  lemma SafeFactorBelowJointRatio(c: real, x: real, lo: real, hi: real)
    requires 0.0 <= c <= 1.0 && lo <= 0.0 <= hi && ScaledInto(c, x, lo, hi)
    ensures JointRatio(Finite(x), lo, hi).Finite? && c <= JointRatio(Finite(x), lo, hi).value
  {
    if x < lo {
      FactorBelowNegativeQuotient(c, lo, x);
    } else if x > hi {
      FactorBelowQuotient(c, hi, x);
    }
  }

  /** For x > 0, c * x <= b bounds c by b / x. */
  lemma FactorBelowQuotient(c: real, b: real, x: real)
    requires 0.0 < x && c * x <= b
    ensures c <= b / x
  {
    var r := b / x;
    assert r * x == b;
    if r < c {
      assert 0.0 < (c - r) * x;
    }
  }

  /** For x < 0, b <= c * x bounds c by b / x. */
  lemma FactorBelowNegativeQuotient(c: real, b: real, x: real)
    requires x < 0.0 && b <= c * x
    ensures c <= b / x
  {
    var r := b / x;
    assert r * x == b;
    if r < c {
      assert (c - r) * x < 0.0;
    }
  }

  /** When every component already lies in its window the ratio stays 1. */
  lemma {:induction false} RatioOneWhenWithin(dq: seq<Double>, lo: seq<real>, hi: seq<real>, k: nat)
    requires Shaped(dq, lo, hi) && k <= |dq|
    requires forall j :: 0 <= j < k ==> dq[j].Finite? && lo[j] <= dq[j].value <= hi[j]
    ensures RatioOver(dq, lo, hi, k) == 1.0
  {
    if k > 0 {
      RatioOneWhenWithin(dq, lo, hi, k - 1);
    }
  }

  /** A step already inside its velocity limits is left
      exactly as it is. */
  lemma SaturationKeepsStepWithinLimits(dq: seq<Double>, lo: seq<real>, hi: seq<real>)
    requires Shaped(dq, lo, hi)
    requires forall j :: 0 <= j < |dq| ==> dq[j].Finite? && lo[j] <= dq[j].value <= hi[j]
    ensures SpeedRatio(dq, lo, hi) == 1.0
    ensures Saturated(dq, lo, hi) == dq
  {
    RatioOneWhenWithin(dq, lo, hi, |dq|);
  }

  /** The ratio loop never lets the ratio grow back. */
  lemma {:induction false} RatioNonIncreasing(dq: seq<Double>, lo: seq<real>, hi: seq<real>, i: nat, k: nat)
    requires Shaped(dq, lo, hi) && i <= k <= |dq|
    ensures RatioOver(dq, lo, hi, k) <= RatioOver(dq, lo, hi, i)
    decreases k
  {
    if i < k {
      RatioNonIncreasing(dq, lo, hi, i, k - 1);
    }
  }

  /** Once joint j has been visited, the ratio stays at or below the finite
      non-negative ratio that joint asked for. */
  lemma RatioBelowJoint(dq: seq<Double>, lo: seq<real>, hi: seq<real>, k: nat, j: nat)
    requires Shaped(dq, lo, hi) && j < k <= |dq|
    requires JointRatio(dq[j], lo[j], hi[j]).Finite?
    ensures RatioOver(dq, lo, hi, k) <= JointRatio(dq[j], lo[j], hi[j]).value
  {
    RatioNonIncreasing(dq, lo, hi, j + 1, k);
  }

  /** A common factor below 1 and below every joint's own ratio is below the
      common ratio. */
  lemma {:induction false} RatioAtLeast(dq: seq<Double>, lo: seq<real>, hi: seq<real>, k: nat, c: real)
    requires Shaped(dq, lo, hi) && k <= |dq| && 0.0 <= c <= 1.0
    requires forall j :: 0 <= j < k ==>
      JointRatio(dq[j], lo[j], hi[j]).Finite? && c <= JointRatio(dq[j], lo[j], hi[j]).value
    ensures c <= RatioOver(dq, lo, hi, k)
  {
    if k > 0 {
      RatioAtLeast(dq, lo, hi, k - 1, c);
    }
  }

  /** The common speed ratio brings every finite component into its
      window. */
  lemma SpeedRatioIsSafe(dq: seq<Double>, lo: seq<real>, hi: seq<real>)
    requires Shaped(dq, lo, hi) && StraddleZero(lo, hi)
    ensures forall j :: 0 <= j < |dq| && dq[j].Finite? ==>
      ScaledInto(SpeedRatio(dq, lo, hi), dq[j].value, lo[j], hi[j])
  {
    forall j | 0 <= j < |dq| && dq[j].Finite?
      ensures ScaledInto(SpeedRatio(dq, lo, hi), dq[j].value, lo[j], hi[j])
    {
      assert dq[j] == Finite(dq[j].value);
      RatioBelowJoint(dq, lo, hi, |dq|, j);
      BelowJointRatioIsSafe(SpeedRatio(dq, lo, hi), dq[j].value, lo[j], hi[j]);
    }
  }

  /** With lvlimit*dt <= 0 <= uvlimit*dt, every finite
      component of the saturated step lies in [lvlimit*dt, uvlimit*dt]. */
  lemma SaturatedWithinBounds(dq: seq<Double>, lo: seq<real>, hi: seq<real>)
    requires Shaped(dq, lo, hi) && StraddleZero(lo, hi)
    ensures forall j :: 0 <= j < |dq| && dq[j].Finite? ==>
      Saturated(dq, lo, hi)[j].Finite? && lo[j] <= Saturated(dq, lo, hi)[j].value <= hi[j]
  {
    SpeedRatioIsSafe(dq, lo, hi);
    var m := SpeedRatio(dq, lo, hi);
    forall j | 0 <= j < |dq| && dq[j].Finite?
      ensures lo[j] <= Saturated(dq, lo, hi)[j].value <= hi[j]
    {
      assert ScaledInto(m, dq[j].value, lo[j], hi[j]);
      if m == 1.0 {
        assert Saturated(dq, lo, hi)[j] == dq[j];
      }
    }
  }

  /** The speed ratio of a finite step is
      the largest common factor in [0, 1] that brings every joint inside its
      velocity window. */
  lemma SpeedRatioIsLargestSafeFactor(dq: seq<Double>, lo: seq<real>, hi: seq<real>, c: real)
    requires Shaped(dq, lo, hi) && StraddleZero(lo, hi) && AllFinite(dq)
    ensures forall j :: 0 <= j < |dq| ==> ScaledInto(SpeedRatio(dq, lo, hi), dq[j].value, lo[j], hi[j])
    ensures 0.0 <= c <= 1.0 && (forall j :: 0 <= j < |dq| ==> ScaledInto(c, dq[j].value, lo[j], hi[j]))
      ==> c <= SpeedRatio(dq, lo, hi)
  {
    SpeedRatioIsSafe(dq, lo, hi);
    if 0.0 <= c <= 1.0 && (forall j :: 0 <= j < |dq| ==> ScaledInto(c, dq[j].value, lo[j], hi[j])) {
      forall j | 0 <= j < |dq|
        ensures JointRatio(dq[j], lo[j], hi[j]).Finite? && c <= JointRatio(dq[j], lo[j], hi[j]).value
      {
        assert dq[j] == Finite(dq[j].value);
        SafeFactorBelowJointRatio(c, dq[j].value, lo[j], hi[j]);
      }
      RatioAtLeast(dq, lo, hi, |dq|, c);
    }
  }

  /** lvlimit <= 0 <= uvlimit with dt >= 0 gives windows that straddle 0. */
  lemma WindowsStraddleZero(lv: seq<real>, uv: seq<real>, dt: real)
    requires |lv| == |uv| && 0.0 <= dt
    requires forall j :: 0 <= j < |lv| ==> lv[j] <= 0.0 <= uv[j]
    ensures StraddleZero(Scales(lv, dt), Scales(uv, dt))
  {
    forall j | 0 <= j < |lv|
      ensures Scales(lv, dt)[j] <= 0.0 <= Scales(uv, dt)[j]
    {
      assert lv[j] * dt <= 0.0;
      assert uv[j] * dt >= 0.0;
    }
  }
}
