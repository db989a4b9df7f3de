/**
 * The specification of one step of JointPathEx's inverse-kinematics solver
 * (calcJacobianInverseNullspace and calcInverseKinematics2Loop), as
 * functions of the chain's state. The class IKSolver.JointPathEx performs
 * the same computation with loops over its arrays and is proved against
 * these functions.
 */
module IKStep {
  import opened Ieee
  import opened Wrappers
  import VelocityLimit
  import JointLimitWeighting
  import SingularityDamping
  import NullspaceMotion
  import opened RealArith

  type NonNeg = x: real | 0.0 <= x

  /** dp.dp and omega.omega of the end link's pose error at some joint
      angles, before the error vectors are clipped. */
  datatype PoseError = PoseError(dpSqr: NonNeg, omegaSqr: NonNeg)

  /** What the weighted SR-inverse yields for one step: Jinv * v, and the
      null-space projector Jnull = I - Jinv * J. */
  datatype SrSolution = SrSolution(primary: nat -> Double, nullspace: NullspaceMotion.Projector)

  /** The kinematics of the chain, which the model does not compute: the
      pose error against the IK target (forward kinematics and
      omegaFromRotEx), the manipulability sqrt(det(J J^T)), and the
      weighted SR-inverse for given angles, diagonal weights and damping. */
  datatype Kinematics = Kinematics(
    poseError: seq<real> -> PoseError,
    manipulability: seq<real> -> NonNeg,
    srInverse: (seq<real>, seq<real>, real) -> SrSolution)

  /** A snapshot of the chain's joint data and gains. */
  datatype Chain = Chain(
    q: seq<real>,
    llimit: seq<real>,
    ulimit: seq<real>,
    lvlimit: seq<real>,
    uvlimit: seq<real>,
    optionalWeight: seq<real>,
    avoidWeightGain: seq<real>,
    jointId: seq<int>,
    dt: real,
    srGain: real,
    manipulabilityLimit: real,
    manipulabilityGain: real)
  {
    predicate Valid()
    {
      && |llimit| == |q| && |ulimit| == |q| && |lvlimit| == |q| && |uvlimit| == |q|
      && |optionalWeight| == |q| && |avoidWeightGain| == |q| && |jointId| == |q|
    }

    /** The limit ranges are well-formed. */
    predicate LimitsOrdered()
      requires Valid()
    {
      forall j :: 0 <= j < |q| ==> llimit[j] <= ulimit[j]
    }

    /** Every joint can stand still: lvlimit <= 0 <= uvlimit, and dt >= 0. */
    predicate VelocityLimitsAdmitRest()
      requires Valid()
    {
      0.0 <= dt && forall j :: 0 <= j < |q| ==> lvlimit[j] <= 0.0 <= uvlimit[j]
    }

    predicate WithinLimits()
      requires Valid()
    {
      forall j :: 0 <= j < |q| ==> llimit[j] <= q[j] <= ulimit[j]
    }
  }

  /** The Chang-Dubey cost of every joint at the current angles, which the
      step stores in avoid_weight_gain. */
  function Costs(c: Chain): (r: seq<real>)
    requires c.Valid()
    ensures |r| == |c.q|
    ensures forall j :: 0 <= j < |c.q| ==> 0.0 <= r[j]
    ensures forall j :: 0 <= j < |c.q| ==> r[j] == JointLimitWeighting.LimitCost(c.q[j], c.llimit[j], c.ulimit[j])
  {
    seq(|c.q|, j requires 0 <= j < |c.q| => JointLimitWeighting.LimitCost(c.q[j], c.llimit[j], c.ulimit[j]))
  }

  /** The diagonal of the weight matrix: each joint's new cost compared with
      the stored one. */
  function Weights(c: Chain): (w: seq<real>)
    requires c.Valid()
    ensures |w| == |c.q|
    ensures forall j :: 0 <= j < |c.q| ==> w[j] == JointLimitWeighting.HysteresisWeight(Costs(c)[j], c.avoidWeightGain[j], c.optionalWeight[j])
    ensures forall j :: 0 <= j < |c.q| && 0.0 < c.optionalWeight[j] ==> 0.0 < w[j] <= c.optionalWeight[j]
    ensures forall j :: 0 <= j < |c.q| && Costs(c)[j] < c.avoidWeightGain[j] ==> w[j] == c.optionalWeight[j]
  {
    var r := Costs(c);
    seq(|c.q|, j requires 0 <= j < |c.q| => JointLimitWeighting.HysteresisWeight(r[j], c.avoidWeightGain[j], c.optionalWeight[j]))
  }

  /** The damping k of the SR-inverse, before it is multiplied by sr_gain. */
  function Damping(kin: Kinematics, c: Chain): (k: real)
    ensures c.manipulabilityLimit <= kin.manipulability(c.q) ==> k == 0.0
    ensures 0.0 <= c.manipulabilityGain ==> 0.0 <= k <= c.manipulabilityGain
  {
    SingularityDamping.Damping(kin.manipulability(c.q), c.manipulabilityLimit, c.manipulabilityGain)
  }

  /** The damping handed to the SR-inverse: sr_gain * k. */
  function SrDamping(kin: Kinematics, c: Chain): real
  {
    c.srGain * Damping(kin, c)
  }

  /** The weighted, damped SR-inverse at the chain's angles. */
  function Solution(kin: Kinematics, c: Chain): SrSolution
    requires c.Valid()
  {
    kin.srInverse(c.q, Weights(c), SrDamping(kin, c))
  }

  function Primary(s: SrSolution, n: nat): (dq: seq<Double>)
    ensures |dq| == n && forall j :: 0 <= j < n ==> dq[j] == s.primary(j)
  {
    seq(n, j requires 0 <= j < n => s.primary(j))
  }

  /** The avoidance input, present when avoid_gain > 0: finite exactly when
      no joint's range is collapsed, and for a joint with a proper range and
      a positive optional weight it pushes toward the middle of the range. */
  function AvoidanceTerm(c: Chain, avoidGain: real): (u: Option<seq<Double>>)
    requires c.Valid()
    ensures u.Some? <==> 0.0 < avoidGain
    ensures u.Some? ==> |u.value| == |c.q|
    ensures u.Some? ==> (AllFinite(u.value) <==> forall j :: 0 <= j < |c.q| ==> c.llimit[j] != c.ulimit[j])
    ensures u.Some? ==> forall j :: 0 <= j < |c.q| && c.llimit[j] < c.ulimit[j] && 0.0 < c.optionalWeight[j] ==>
      && u.value[j].Finite?
      && (0.0 < u.value[j].value <==> c.q[j] < (c.llimit[j] + c.ulimit[j]) / 2.0)
      && (u.value[j].value < 0.0 <==> (c.llimit[j] + c.ulimit[j]) / 2.0 < c.q[j])
  {
    if avoidGain > 0.0 then
      var scale := Scales(c.optionalWeight, avoidGain);
      var u := NullspaceMotion.AvoidanceInputs(c.q, c.llimit, c.ulimit, scale);
      assert forall j :: 0 <= j < |c.q| && 0.0 < c.optionalWeight[j] ==> 0.0 < scale[j] by {
        forall j | 0 <= j < |c.q| && 0.0 < c.optionalWeight[j] {
          ProductPositive(c.optionalWeight[j], avoidGain);
        }
      }
      Some(u)
    else None
  }

  /** The reference posture can be read for every joint of the chain. */
  predicate ReferenceReadable(c: Chain, referenceGain: real, referenceQ: Option<seq<real>>)
  {
    0.0 < referenceGain && referenceQ.Some? ==> NullspaceMotion.Indexes(c.jointId, referenceQ.value)
  }

  /** The reference input, present when reference_gain > 0 and a reference
      posture is given: it vanishes at a joint standing at its reference
      angle, and with a positive optional weight pulls the joint toward it. */
  function ReferenceTerm(c: Chain, referenceGain: real, referenceQ: Option<seq<real>>): (u: Option<seq<real>>)
    requires c.Valid() && ReferenceReadable(c, referenceGain, referenceQ)
    ensures u.Some? <==> 0.0 < referenceGain && referenceQ.Some?
    ensures u.Some? ==> |u.value| == |c.q|
    ensures u.Some? ==> forall j :: 0 <= j < |c.q| && c.q[j] == referenceQ.value[c.jointId[j]] ==> u.value[j] == 0.0
    ensures u.Some? ==> forall j :: 0 <= j < |c.q| && 0.0 < c.optionalWeight[j] ==>
      && (0.0 < u.value[j] <==> c.q[j] < referenceQ.value[c.jointId[j]])
      && (u.value[j] < 0.0 <==> referenceQ.value[c.jointId[j]] < c.q[j])
  {
    if referenceGain > 0.0 && referenceQ.Some? then
      var scale := Scales(c.optionalWeight, referenceGain);
      var u := NullspaceMotion.ReferenceInputs(c.q, c.jointId, referenceQ.value, scale);
      assert forall j :: 0 <= j < |c.q| && 0.0 < c.optionalWeight[j] ==> 0.0 < scale[j] by {
        forall j | 0 <= j < |c.q| && 0.0 < c.optionalWeight[j] {
          ProductPositive(c.optionalWeight[j], referenceGain);
        }
      }
      Some(u)
    else None
  }

  /** dq before saturation. */
  function Candidate(kin: Kinematics, c: Chain, avoidGain: real, referenceGain: real, referenceQ: Option<seq<real>>): (dq: seq<Double>)
    requires c.Valid() && ReferenceReadable(c, referenceGain, referenceQ)
    ensures |dq| == |c.q|
  {
    var s := Solution(kin, c);
    NullspaceMotion.CandidateVelocity(Primary(s, |c.q|), s.nullspace, AvoidanceTerm(c, avoidGain), ReferenceTerm(c, referenceGain, referenceQ))
  }

  function LowerWindow(c: Chain): (w: seq<real>)
  {
    Scales(c.lvlimit, c.dt)
  }

  function UpperWindow(c: Chain): (w: seq<real>)
  {
    Scales(c.uvlimit, c.dt)
  }

  /** dq after saturation: the step that is checked and applied. */
  function StepVelocity(kin: Kinematics, c: Chain, avoidGain: real, referenceGain: real, referenceQ: Option<seq<real>>): (dq: seq<Double>)
    requires c.Valid() && ReferenceReadable(c, referenceGain, referenceQ)
    ensures |dq| == |c.q|
    ensures AllFinite(dq) <==> AllFinite(Candidate(kin, c, avoidGain, referenceGain, referenceQ))
  {
    VelocityLimit.Saturated(Candidate(kin, c, avoidGain, referenceGain, referenceQ), LowerWindow(c), UpperWindow(c))
  }

  /** The limit check of one joint: above ulimit it is set to ulimit, then
      below llimit to llimit, then std::max with llimit. */
  function ClampJoint(x: real, lower: real, upper: real): (r: real)
    ensures lower <= upper ==> lower <= r <= upper
    ensures lower <= x <= upper ==> r == x
    ensures upper < x && lower <= upper ==> r == upper
    ensures x < lower ==> r == lower
  {
    var belowUpper := if x > upper then upper else x;
    var aboveLower := if belowUpper < lower then lower else belowUpper;
    if aboveLower < lower then lower else aboveLower
  }

  /** The product k * x; the step's bounds are stated through it so that the
      proofs about them reason about whole products. */
  function Times(k: real, x: real): real
  {
    k * x
  }

  /** The angles after q += stepGain * dq. */
  function Stepped(q: seq<real>, stepGain: real, dq: seq<real>): (r: seq<real>)
    requires |dq| == |q|
    ensures |r| == |q| && forall j :: 0 <= j < |q| ==> r[j] == q[j] + Times(stepGain, dq[j])
  {
    seq(|q|, j requires 0 <= j < |q| => q[j] + Times(stepGain, dq[j]))
  }

  /** The angles after the limit check of every joint. */
  function Clamped(x: seq<real>, lower: seq<real>, upper: seq<real>): (r: seq<real>)
    requires |lower| == |x| && |upper| == |x|
    ensures |r| == |x|
    ensures forall j :: 0 <= j < |x| ==> r[j] == ClampJoint(x[j], lower[j], upper[j])
    ensures forall j :: 0 <= j < |x| && lower[j] <= upper[j] ==> lower[j] <= r[j] <= upper[j]
  {
    seq(|x|, j requires 0 <= j < |x| => ClampJoint(x[j], lower[j], upper[j]))
  }

  /** The angles after an accepted step with gain stepGain. */
  function NextAngles(kin: Kinematics, c: Chain, stepGain: real, avoidGain: real, referenceGain: real, referenceQ: Option<seq<real>>): (q: seq<real>)
    requires c.Valid() && ReferenceReadable(c, referenceGain, referenceQ)
    requires AllFinite(StepVelocity(kin, c, avoidGain, referenceGain, referenceQ))
    ensures |q| == |c.q|
    ensures c.LimitsOrdered() ==> forall j :: 0 <= j < |q| ==> c.llimit[j] <= q[j] <= c.ulimit[j]
  {
    Clamped(Stepped(c.q, stepGain, Values(StepVelocity(kin, c, avoidGain, referenceGain, referenceQ))), c.llimit, c.ulimit)
  }

  /** A joint whose two limits coincide makes the avoidance input divide by
      zero, so while avoid_gain > 0 every step of the chain is rejected. */
  lemma CollapsedRangeRejectsStep(kin: Kinematics, c: Chain, avoidGain: real, referenceGain: real,
                                  referenceQ: Option<seq<real>>, j0: nat)
    requires c.Valid() && ReferenceReadable(c, referenceGain, referenceQ)
    requires j0 < |c.q| && c.llimit[j0] == c.ulimit[j0] && 0.0 < avoidGain
    ensures !AllFinite(StepVelocity(kin, c, avoidGain, referenceGain, referenceQ))
  {
    var u := AvoidanceTerm(c, avoidGain).value;
    assert !u[j0].Finite?;
  }

  /** With velocity limits around zero, every component of an accepted step
      lies in its window [lvlimit * dt, uvlimit * dt]. */
  lemma StepWithinVelocityWindows(kin: Kinematics, c: Chain, avoidGain: real, referenceGain: real,
                                  referenceQ: Option<seq<real>>)
    requires c.Valid() && ReferenceReadable(c, referenceGain, referenceQ) && c.VelocityLimitsAdmitRest()
    ensures var v := StepVelocity(kin, c, avoidGain, referenceGain, referenceQ);
      forall j :: 0 <= j < |v| && v[j].Finite? ==> LowerWindow(c)[j] <= v[j].value <= UpperWindow(c)[j]
  {
    var dq := Candidate(kin, c, avoidGain, referenceGain, referenceQ);
    VelocityLimit.WindowsStraddleZero(c.lvlimit, c.uvlimit, c.dt);
    VelocityLimit.SaturatedWithinBounds(dq, LowerWindow(c), UpperWindow(c));
  }

  /** The limit check moves an angle that started inside its range no
      further than the unchecked update would have. */
  lemma ClampStaysBetween(q: real, x: real, lower: real, upper: real)
    requires lower <= q <= upper
    ensures q <= x ==> q <= ClampJoint(x, lower, upper) <= x
    ensures x <= q ==> x <= ClampJoint(x, lower, upper) <= q
  {
  }

  lemma ScaleWindow(stepGain: real, v: real, lo: real, hi: real)
    requires 0.0 <= stepGain && lo <= v <= hi
    ensures Times(stepGain, lo) <= Times(stepGain, v) <= Times(stepGain, hi)
  {
  }

  lemma ScaleStraddlesZero(stepGain: real, lo: real, hi: real)
    requires 0.0 <= stepGain && lo <= 0.0 <= hi
    ensures Times(stepGain, lo) <= 0.0 <= Times(stepGain, hi)
  {
  }

  /** d lies within stepGain times the window [lo, hi]. */
  predicate MovedWithin(d: real, stepGain: real, lo: real, hi: real)
  {
    Times(stepGain, lo) <= d <= Times(stepGain, hi)
  }

  /** One joint of a step: from q inside [lower, upper], the checked angle
      after q + stepGain * v lies within stepGain times v's window of q. */
  lemma JointMotionBounded(q: real, v: real, stepGain: real, lo: real, hi: real, lower: real, upper: real)
    requires lower <= q <= upper && lo <= v <= hi && lo <= 0.0 <= hi && 0.0 <= stepGain
    ensures MovedWithin(ClampJoint(q + Times(stepGain, v), lower, upper) - q, stepGain, lo, hi)
  {
    ScaleWindow(stepGain, v, lo, hi);
    ScaleStraddlesZero(stepGain, lo, hi);
    ClampedOffsetWithin(q, Times(stepGain, v), lower, upper, Times(stepGain, lo), Times(stepGain, hi));
  }

  /** Clamping q + d, for q inside its limits, moves q by no more than d's
      window around 0 allows. */
  lemma ClampedOffsetWithin(q: real, d: real, lower: real, upper: real, dlo: real, dhi: real)
    requires lower <= q <= upper && dlo <= d <= dhi && dlo <= 0.0 <= dhi
    ensures dlo <= ClampJoint(q + d, lower, upper) - q <= dhi
  {
    ClampStaysBetween(q, q + d, lower, upper);
  }

  /** From angles inside their limits, an accepted step moves every joint by
      at most stepGain times its velocity window. */
  lemma StepMotionBounded(kin: Kinematics, c: Chain, stepGain: real, avoidGain: real, referenceGain: real,
                          referenceQ: Option<seq<real>>)
    requires c.Valid() && ReferenceReadable(c, referenceGain, referenceQ) && 0.0 <= stepGain
    requires c.VelocityLimitsAdmitRest() && c.WithinLimits()
    requires AllFinite(StepVelocity(kin, c, avoidGain, referenceGain, referenceQ))
    ensures var next := NextAngles(kin, c, stepGain, avoidGain, referenceGain, referenceQ);
      forall j :: 0 <= j < |c.q| ==> MovedWithin(next[j] - c.q[j], stepGain, LowerWindow(c)[j], UpperWindow(c)[j])
  {
    var v := Values(StepVelocity(kin, c, avoidGain, referenceGain, referenceQ));
    StepWithinVelocityWindows(kin, c, avoidGain, referenceGain, referenceQ);
    VelocityLimit.WindowsStraddleZero(c.lvlimit, c.uvlimit, c.dt);
    AnglesMoveWithinWindows(c.q, v, stepGain, LowerWindow(c), UpperWindow(c), c.llimit, c.ulimit);
  }

  lemma AnglesMoveWithinWindows(q: seq<real>, v: seq<real>, stepGain: real, lo: seq<real>, hi: seq<real>,
                                lower: seq<real>, upper: seq<real>)
    requires |v| == |q| && |lo| == |q| && |hi| == |q| && |lower| == |q| && |upper| == |q| && 0.0 <= stepGain
    requires forall j :: 0 <= j < |q| ==> lower[j] <= q[j] <= upper[j]
    requires forall j :: 0 <= j < |q| ==> lo[j] <= v[j] <= hi[j]
    requires forall j :: 0 <= j < |q| ==> lo[j] <= 0.0 <= hi[j]
    ensures var next := Clamped(Stepped(q, stepGain, v), lower, upper);
      forall j :: 0 <= j < |q| ==> MovedWithin(next[j] - q[j], stepGain, lo[j], hi[j])
  {
    var next := Clamped(Stepped(q, stepGain, v), lower, upper);
    forall j | 0 <= j < |q|
      ensures MovedWithin(next[j] - q[j], stepGain, lo[j], hi[j])
    {
      JointMotionBounded(q[j], v[j], stepGain, lo[j], hi[j], lower[j], upper[j]);
    }
  }

  /** At the reference posture the reference input is zero, so it leaves the
      step as it would be without a reference, whether that step is finite
      or not. */
  lemma ReferenceInertAtReference(kin: Kinematics, c: Chain, avoidGain: real, referenceGain: real, reference: seq<real>)
    requires c.Valid() && 0.0 < referenceGain && NullspaceMotion.Indexes(c.jointId, reference)
    requires forall j :: 0 <= j < |c.q| ==> c.q[j] == reference[c.jointId[j]]
    requires NullspaceMotion.ProjectorFinite(Solution(kin, c).nullspace, |c.q|)
    ensures Candidate(kin, c, avoidGain, referenceGain, Some(reference)) == Candidate(kin, c, avoidGain, referenceGain, None)
  {
    var s := Solution(kin, c);
    var withAvoidance := NullspaceMotion.AddProjected(Primary(s, |c.q|), s.nullspace, AvoidanceTerm(c, avoidGain));
    var u := Lift(ReferenceTerm(c, referenceGain, Some(reference)).value);
    NullspaceMotion.AddProjectedZero(withAvoidance, s.nullspace, u);
  }
}
