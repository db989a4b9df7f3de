/**
 * JointPathEx: a serial chain of joints with the state its inverse
 * kinematics keeps. The joint angles and the stored joint-limit costs are
 * arrays updated in place; every method is proved against the functions of
 * IKStep and SolveLoop on a snapshot of the chain.
 */
module IKSolver {
  import opened Ieee
  import opened Wrappers
  import opened IKStep
  import opened SolveLoop
  import VelocityLimit
  import JointLimitWeighting
  import SingularityDamping
  import NullspaceMotion
  import NumericConstants
  import opened RealArith

  /** How one pass of the solve loop ends. */
  datatype Status = Done | Failed | Continue

  class JointPathEx {
    /** joints[j]->q, which the solver moves. */
    const q: array<real>
    /** joints[j]->llimit, ulimit, lvlimit, uvlimit and jointId. */
    const llimit: array<real>
    const ulimit: array<real>
    const lvlimit: array<real>
    const uvlimit: array<real>
    const jointId: array<int>
    /** optional_weight_vector. */
    const optionalWeight: array<real>
    /** avoid_weight_gain: each joint's cost at the previous weighting. */
    const avoidWeightGain: array<real>
    /** Whether the link path from base to end is empty, and whether the
        base link is the end link; consulted only for a chain without joints. */
    const linkPathEmpty: bool
    const baseIsEnd: bool

    var dt: real
    var srGain: real
    var manipulabilityLimit: real
    var manipulabilityGain: real
    var maxIKPosErrorSqr: real
    var maxIKRotErrorSqr: real
    var maxIKErrorSqr: real
    var maxIKIteration: int
    var isBestEffortIKMode: bool

    ghost predicate Valid()
    {
      && llimit.Length == q.Length && ulimit.Length == q.Length
      && lvlimit.Length == q.Length && uvlimit.Length == q.Length
      && optionalWeight.Length == q.Length && avoidWeightGain.Length == q.Length
      && jointId.Length == q.Length
      && q != llimit && q != ulimit && q != lvlimit && q != uvlimit && q != optionalWeight
      && avoidWeightGain != llimit && avoidWeightGain != ulimit && avoidWeightGain != lvlimit
      && avoidWeightGain != uvlimit && avoidWeightGain != optionalWeight && avoidWeightGain != q
    }

    /** The chain's current state as a value. */
    function View(): (c: Chain)
      reads this, q, llimit, ulimit, lvlimit, uvlimit, jointId, optionalWeight, avoidWeightGain
      requires Valid()
      ensures c.Valid()
    {
      Chain(q[..], llimit[..], ulimit[..], lvlimit[..], uvlimit[..], optionalWeight[..], avoidWeightGain[..],
            jointId[..], dt, srGain, manipulabilityLimit, manipulabilityGain)
    }

    function Tolerance(): Tolerances
      reads this
    {
      Tolerances(isBestEffortIKMode, maxIKPosErrorSqr, maxIKRotErrorSqr, maxIKErrorSqr)
    }

    /** A chain over the given joints with the default gains and
        tolerances, every optional weight 1.0 and the control cycle as dt. */
    constructor (angles: array<real>, lower: array<real>, upper: array<real>,
                 lowerVelocity: array<real>, upperVelocity: array<real>, ids: array<int>,
                 pathEmpty: bool, baseEnd: bool, controlCycle: real)
      requires lower.Length == angles.Length && upper.Length == angles.Length
      requires lowerVelocity.Length == angles.Length && upperVelocity.Length == angles.Length
      requires ids.Length == angles.Length
      requires angles != lower && angles != upper && angles != lowerVelocity && angles != upperVelocity
      ensures Valid()
      ensures q == angles && llimit == lower && ulimit == upper && lvlimit == lowerVelocity
      ensures uvlimit == upperVelocity && jointId == ids
      ensures linkPathEmpty == pathEmpty && baseIsEnd == baseEnd
      ensures fresh(optionalWeight) && fresh(avoidWeightGain)
      ensures forall j :: 0 <= j < optionalWeight.Length ==> optionalWeight[j] == 1.0
      ensures forall j :: 0 <= j < avoidWeightGain.Length ==> avoidWeightGain[j] == 0.0
      ensures dt == controlCycle && srGain == 1.0
      ensures manipulabilityLimit == 0.1 && manipulabilityGain == 0.001
      ensures maxIKPosErrorSqr == 0.00000001 && maxIKRotErrorSqr == 0.000001 && maxIKIteration == 50
      ensures maxIKErrorSqr == 0.0 && !isBestEffortIKMode
    {
      q, llimit, ulimit, lvlimit, uvlimit, jointId := angles, lower, upper, lowerVelocity, upperVelocity, ids;
      linkPathEmpty, baseIsEnd := pathEmpty, baseEnd;
      optionalWeight := new real[angles.Length](_ => 1.0);
      avoidWeightGain := new real[angles.Length](_ => 0.0);
      dt := controlCycle;
      srGain, manipulabilityLimit, manipulabilityGain := 1.0, 0.1, 0.001;
      maxIKPosErrorSqr, maxIKRotErrorSqr, maxIKIteration := 0.00000001, 0.000001, 50;
      maxIKErrorSqr, isBestEffortIKMode := 0.0, false;
    }

    /** setMaxIKError(epos, erot): the threshold tolerances are given as
        norms and stored squared. */
    method SetMaxIKError(epos: real, erot: real)
      modifies this`maxIKPosErrorSqr, this`maxIKRotErrorSqr
      ensures maxIKPosErrorSqr == epos * epos && maxIKRotErrorSqr == erot * erot
    {
      maxIKPosErrorSqr := epos * epos;
      maxIKRotErrorSqr := erot * erot;
    }

    /** setMaxIKError(e): the best-effort tolerance, stored squared. */
    method SetMaxIKBestEffortError(e: real)
      modifies this`maxIKErrorSqr
      ensures maxIKErrorSqr == e * e
    {
      maxIKErrorSqr := e * e;
    }

    method SetMaxIKIteration(iter: int)
      modifies this`maxIKIteration
      ensures maxIKIteration == iter
    {
      maxIKIteration := iter;
    }

    /** The weighting and damping part of calcJacobianInverseNullspace:
        weights each joint by its cost against the stored one, stores the
        new costs and asks the kinematics for the damped SR-inverse. */
    method JacobianInverseNullspace(kin: Kinematics) returns (s: SrSolution)
      requires Valid()
      modifies avoidWeightGain
      ensures s == Solution(kin, old(View()))
      ensures avoidWeightGain[..] == Costs(old(View()))
    {
      ghost var c := View();
      var w := WeighJoints();
      var k := SingularityDamping.Damping(kin.manipulability(q[..]), manipulabilityLimit, manipulabilityGain);
      assert q[..] == c.q && k == Damping(kin, c) && srGain == c.srGain;
      var damping := srGain * k;
      assert damping == SrDamping(kin, c);
      s := kin.srInverse(q[..], w, damping);
    }

    /** The weighting loop: each joint's weight from its cost against the
        stored one, after which the new cost is stored. */
    method WeighJoints() returns (w: seq<real>)
      requires Valid()
      modifies avoidWeightGain
      ensures w == Weights(old(View()))
      ensures avoidWeightGain[..] == Costs(old(View()))
    {
      ghost var c := View();
      ghost var weights, costs := Weights(c), Costs(c);
      var n := q.Length;
      w := [];
      var j := 0;
      while j < n
        invariant 0 <= j <= n && |w| == j
        invariant forall i :: 0 <= i < j ==> w[i] == weights[i]
        invariant forall i :: 0 <= i < j ==> avoidWeightGain[i] == costs[i]
        invariant forall i :: j <= i < n ==> avoidWeightGain[i] == c.avoidWeightGain[i]
      {
        var r := JointLimitWeighting.LimitCost(q[j], llimit[j], ulimit[j]);
        w := w + [JointLimitWeighting.HysteresisWeight(r, avoidWeightGain[j], optionalWeight[j])];
        avoidWeightGain[j] := r;
        j := j + 1;
      }
      assert w == weights;
      assert avoidWeightGain[..] == costs;
    }

    /** The joint-limit avoidance input u of calcInverseKinematics2Loop. */
    method AvoidanceVector(avoidGain: real) returns (u: seq<Double>)
      requires Valid()
      ensures u == NullspaceMotion.AvoidanceInputs(q[..], llimit[..], ulimit[..], Scales(optionalWeight[..], avoidGain))
    {
      ghost var scales := Scales(optionalWeight[..], avoidGain);
      var n := q.Length;
      u := [];
      var j := 0;
      while j < n
        invariant 0 <= j <= n && |u| == j
        invariant forall i :: 0 <= i < j ==> u[i] == NullspaceMotion.AvoidanceInput(q[i], llimit[i], ulimit[i], scales[i])
      {
        var scale := optionalWeight[j] * avoidGain;
        assert scale == scales[j];
        u := u + [NullspaceMotion.AvoidanceInput(q[j], llimit[j], ulimit[j], scale)];
        j := j + 1;
      }
    }

    /** The reference-posture input u of calcInverseKinematics2Loop. */
    method ReferenceVector(referenceGain: real, reference: seq<real>) returns (u: seq<real>)
      requires Valid() && NullspaceMotion.Indexes(jointId[..], reference)
      ensures u == NullspaceMotion.ReferenceInputs(q[..], jointId[..], reference, Scales(optionalWeight[..], referenceGain))
    {
      ghost var scales := Scales(optionalWeight[..], referenceGain);
      var n := q.Length;
      u := [];
      var j := 0;
      while j < n
        invariant 0 <= j <= n && |u| == j
        invariant forall i :: 0 <= i < j ==> u[i] == NullspaceMotion.ReferenceInput(reference[jointId[i]], q[i], scales[i])
      {
        var scale := optionalWeight[j] * referenceGain;
        assert scale == scales[j];
        u := u + [NullspaceMotion.ReferenceInput(reference[jointId[j]], q[j], scale)];
        j := j + 1;
      }
    }

    /** The speed limitation of calcInverseKinematics2Loop: the window
        [lvlimit * dt, uvlimit * dt] of every joint, the smallest per-joint
        ratio, and dq scaled by it when it is below 1. */
    method SaturateVelocity(dq: seq<Double>) returns (r: seq<Double>)
      requires Valid() && |dq| == q.Length
      ensures r == VelocityLimit.Saturated(dq, LowerWindow(View()), UpperWindow(View()))
    {
      var lo := Scales(lvlimit[..], dt);
      var hi := Scales(uvlimit[..], dt);
      var ratio := SpeedRatio(dq, lo, hi);
      r := ScaleVelocity(dq, ratio);
    }

    /** The smallest per-joint ratio over the whole vector, starting from 1. */
    static method SpeedRatio(dq: seq<Double>, lo: seq<real>, hi: seq<real>) returns (ratio: real)
      requires VelocityLimit.Shaped(dq, lo, hi)
      ensures ratio == VelocityLimit.SpeedRatio(dq, lo, hi)
    {
      ratio := 1.0;
      var j := 0;
      while j < |dq|
        invariant 0 <= j <= |dq|
        invariant ratio == VelocityLimit.RatioOver(dq, lo, hi, j)
      {
        ratio := VelocityLimit.Combine(ratio, VelocityLimit.JointRatio(dq[j], lo[j], hi[j]));
        j := j + 1;
      }
    }

    /** Every component multiplied by the ratio when it is below 1. */
    static method ScaleVelocity(dq: seq<Double>, ratio: real) returns (r: seq<Double>)
      ensures r == VelocityLimit.Scaled(dq, ratio)
    {
      if ratio < 1.0 {
        r := [];
        var j := 0;
        while j < |dq|
          invariant 0 <= j <= |dq| && |r| == j
          invariant forall i :: 0 <= i < j ==> r[i] == Mul(dq[i], Finite(ratio))
        {
          r := r + [Mul(dq[j], Finite(ratio))];
          j := j + 1;
        }
      } else {
        r := dq;
      }
    }

    /** The NaN/Inf check: true when every component is finite. */
    static method CheckFinite(dq: seq<Double>) returns (ok: bool)
      ensures ok == AllFinite(dq)
    {
      ok := true;
      var j := 0;
      while j < |dq|
        invariant 0 <= j <= |dq|
        invariant forall i :: 0 <= i < j ==> dq[i].Finite?
      {
        if !dq[j].Finite? {
          ok := false;
          break;
        }
        j := j + 1;
      }
    }

    /** calcInverseKinematics2Loop: one step of the solver. The stored costs
        are renewed; a step with a non-finite component is rejected and the
        angles stay as they were; otherwise every angle moves by stepGain times
        its saturated velocity and is checked against its limits. */
    method IKStep(kin: Kinematics, stepGain: real, avoidGain: real, referenceGain: real, referenceQ: Option<seq<real>>)
      returns (ok: bool)
      requires Valid() && ReferenceReadable(View(), referenceGain, referenceQ)
      modifies q, avoidWeightGain
      ensures avoidWeightGain[..] == Costs(old(View()))
      ensures ok == AllFinite(StepVelocity(kin, old(View()), avoidGain, referenceGain, referenceQ))
      ensures ok ==> q[..] == NextAngles(kin, old(View()), stepGain, avoidGain, referenceGain, referenceQ)
      ensures !ok ==> q[..] == old(q[..])
    {
      ghost var c := View();
      var s := JacobianInverseNullspace(kin);
      var n := q.Length;
      var dq := Primary(s, n);
      if avoidGain > 0.0 {
        var u := AvoidanceVector(avoidGain);
        dq := NullspaceMotion.AddProjected(dq, s.nullspace, Some(u));
      }
      if referenceGain > 0.0 && referenceQ.Some? {
        var u := ReferenceVector(referenceGain, referenceQ.value);
        dq := NullspaceMotion.AddProjected(dq, s.nullspace, Some(Lift(u)));
      }
      assert dq == Candidate(kin, c, avoidGain, referenceGain, referenceQ);
      dq := SaturateVelocity(dq);
      assert dq == StepVelocity(kin, c, avoidGain, referenceGain, referenceQ);
      ok := CheckFinite(dq);
      if !ok {
        return;
      }
      MoveJoints(stepGain, Values(dq));
    }

    /** The start of a solve: the angles are copied into qorg and every
        stored cost is reset. */
    method SaveAndReset() returns (qorg: array<real>)
      requires Valid()
      modifies avoidWeightGain
      ensures fresh(qorg) && qorg[..] == q[..]
      ensures avoidWeightGain[..] == ResetCosts(q.Length)
    {
      var n := q.Length;
      qorg := new real[n];
      var i := 0;
      while i < n
        invariant 0 <= i <= n
        invariant forall k :: 0 <= k < i ==> qorg[k] == q[k] && avoidWeightGain[k] == INITIAL_COST
      {
        qorg[i] := q[i];
        avoidWeightGain[i] := INITIAL_COST;
        i := i + 1;
      }
      assert qorg[..] == q[..];
      assert avoidWeightGain[..] == ResetCosts(n);
    }

    /** The rollback of a solve that ran out of iterations. */
    method Restore(qorg: array<real>)
      requires Valid() && qorg.Length == q.Length && qorg != q
      modifies q
      ensures q[..] == qorg[..]
    {
      var i := 0;
      while i < q.Length
        invariant 0 <= i <= q.Length
        invariant forall k :: 0 <= k < i ==> q[k] == qorg[k]
      {
        q[i] := qorg[i];
        i := i + 1;
      }
      assert q[..] == qorg[..];
    }

    /** One pass of calcInverseKinematics2's loop body: the convergence
        test in force on the clipped pose error and, when it fails, one
        step. `next` is the errsqr the following pass compares against. */
    method Iteration(kin: Kinematics, errsqr: real, avoidGain: real, referenceGain: real, referenceQ: Option<seq<real>>,
                     ghost tol: Tolerances, ghost budget: nat)
      returns (status: Status, next: real)
      requires Valid() && ReferenceReadable(View(), referenceGain, referenceQ) && 0 < budget && tol == Tolerance()
      modifies q, avoidWeightGain
      ensures var o := Iterate(kin, old(View()), tol, errsqr, budget, avoidGain, referenceGain, referenceQ);
        && (status == Done ==> o == Converged(View()))
        && (status == Failed ==> o == Rejected(View()))
        && (status == Continue ==> o == Iterate(kin, View(), tol, next, budget - 1, avoidGain, referenceGain, referenceQ))
    {
      var e := kin.poseError(q[..]);
      var dpSqr := Clipped(e.dpSqr, MAX_POSITION_STEP_SQR);
      var omegaSqr := Clipped(e.omegaSqr, MAX_ROTATION_STEP_SQR);
      next := errsqr;
      if isBestEffortIKMode {
        next := dpSqr + omegaSqr;
        if AbsReal(next - errsqr) < maxIKErrorSqr {
          return Done, next;
        }
      } else if dpSqr < maxIKPosErrorSqr && omegaSqr < maxIKRotErrorSqr {
        return Done, next;
      }
      var ok := TryStep(kin, avoidGain, referenceGain, referenceQ, tol, errsqr, budget);
      status := if ok then Continue else Failed;
    }

    /** The step of a pass whose convergence test failed, as the iteration
        sees it: a rejected step ends it, an accepted one hands it on. */
    method TryStep(kin: Kinematics, avoidGain: real, referenceGain: real, referenceQ: Option<seq<real>>,
                   ghost tol: Tolerances, ghost previous: real, ghost budget: nat)
      returns (ok: bool)
      requires Valid() && ReferenceReadable(View(), referenceGain, referenceQ) && 0 < budget
      requires !Converges(kin.poseError(View().q), previous, tol)
      modifies q, avoidWeightGain
      ensures var o := Iterate(kin, old(View()), tol, previous, budget, avoidGain, referenceGain, referenceQ);
        && (!ok ==> o == Rejected(View()))
        && (ok ==> o == Iterate(kin, View(), tol, NextPrevious(kin.poseError(old(q[..])), previous, tol), budget - 1,
                                avoidGain, referenceGain, referenceQ))
    {
      IterateUnfolds(kin, View(), tol, previous, budget, avoidGain, referenceGain, referenceQ);
      ok := IKStep(kin, LAMBDA, avoidGain, referenceGain, referenceQ);
    }

    /** calcInverseKinematics2: moves the chain toward the target by
        repeated steps. A chain without joints succeeds only when its base is
        its end link. Otherwise the angles are saved and the stored costs
        reset; the loop ends when the convergence test in force passes, a
        step is rejected (false, the angles left where that step found
        them), or maxIteration steps have been taken (false, the saved angles
        put back). maxIteration stands for MAX_IK_ITERATION. */
    method Solve(kin: Kinematics, maxIteration: int, avoidGain: real, referenceGain: real, referenceQ: Option<seq<real>>)
      returns (converged: bool)
      requires Valid() && ReferenceReadable(View(), referenceGain, referenceQ)
      modifies q, avoidWeightGain
      ensures q.Length == 0 ==> converged == (!linkPathEmpty && baseIsEnd)
      ensures q.Length == 0 ==> q[..] == old(q[..]) && avoidWeightGain[..] == old(avoidWeightGain[..])
      ensures q.Length > 0 ==>
        var o := Iterate(kin, old(View()).(avoidWeightGain := ResetCosts(q.Length)), old(Tolerance()),
                         NumericConstants.DBL_MAX, Budget(maxIteration), avoidGain, referenceGain, referenceQ);
        && converged == o.Converged?
        && avoidWeightGain[..] == o.state.avoidWeightGain
        && q[..] == (if o.Exhausted? then old(q[..]) else o.state.q)
    {
      var n := q.Length;
      if n == 0 {
        if linkPathEmpty {
          return false;
        }
        return baseIsEnd;
      }
      var qorg := SaveAndReset();
      assert View() == old(View()).(avoidWeightGain := ResetCosts(n));
      var status := Iterations(kin, maxIteration, avoidGain, referenceGain, referenceQ);
      if status == Failed {
        return false;
      }
      converged := status == Done;
      if !converged {
        Restore(qorg);
      }
    }

    /** The loop of calcInverseKinematics2 from errsqr = DBL_MAX: Done when
        a convergence test passed, Failed when a step was rejected, Continue
        when maxIteration steps were taken. The chain is left in the state
        the iteration ends in. */
    method Iterations(kin: Kinematics, maxIteration: int, avoidGain: real, referenceGain: real, referenceQ: Option<seq<real>>)
      returns (status: Status)
      requires Valid() && ReferenceReadable(View(), referenceGain, referenceQ)
      modifies q, avoidWeightGain
      ensures var o := Iterate(kin, old(View()), Tolerance(), NumericConstants.DBL_MAX, Budget(maxIteration),
                               avoidGain, referenceGain, referenceQ);
        && View() == o.state
        && (status == Done <==> o.Converged?)
        && (status == Failed <==> o.Rejected?)
    {
      ghost var tol := Tolerance();
      ghost var remaining := Budget(maxIteration);
      ghost var outcome := Iterate(kin, View(), tol, NumericConstants.DBL_MAX, remaining, avoidGain, referenceGain, referenceQ);
      var errsqr := NumericConstants.DBL_MAX;
      var iter := 0;
      while iter < maxIteration
        invariant 0 <= iter && remaining == Budget(maxIteration) - iter
        invariant ReferenceReadable(View(), referenceGain, referenceQ) && tol == Tolerance()
        invariant Iterate(kin, View(), tol, errsqr, remaining, avoidGain, referenceGain, referenceQ) == outcome
        decreases maxIteration - iter
      {
        status, errsqr := Iteration(kin, errsqr, avoidGain, referenceGain, referenceQ, tol, remaining);
        if status != Continue {
          return;
        }
        iter := iter + 1;
        remaining := remaining - 1;
      }
      status := Continue;
    }

    /** The joint-angle update q += stepGain * v of an accepted step, followed
        by the upper/lower limit check. */
    method MoveJoints(stepGain: real, v: seq<real>)
      requires Valid() && |v| == q.Length
      modifies q
      ensures q[..] == Clamped(Stepped(old(q[..]), stepGain, v), llimit[..], ulimit[..])
    {
      ghost var x := Stepped(q[..], stepGain, v);
      var n := q.Length;
      var j := 0;
      while j < n
        invariant 0 <= j <= n
        invariant forall i :: 0 <= i < j ==> q[i] == x[i]
        invariant forall i :: j <= i < n ==> q[i] == old(q[i])
      {
        q[j] := q[j] + stepGain * v[j];
        j := j + 1;
      }
      j := 0;
      while j < n
        invariant 0 <= j <= n
        invariant forall i :: 0 <= i < j ==> q[i] == ClampJoint(x[i], llimit[i], ulimit[i])
        invariant forall i :: j <= i < n ==> q[i] == x[i]
      {
        if q[j] > ulimit[j] {
          q[j] := ulimit[j];
        }
        if q[j] < llimit[j] {
          q[j] := llimit[j];
        }
        q[j] := MaxReal(q[j], llimit[j]);
        j := j + 1;
      }
      assert q[..] == Clamped(x, llimit[..], ulimit[..]);
    }
  }

  lemma SquareStrictlyMonotone(x: real, y: real)
    requires 0.0 <= x < y
    ensures x * x < y * y
  {
    var p, s := y - x, y + x;
    ProductPositive(p, s);
    DifferenceOfSquares(x, y, p, s);
  }

  lemma SquareOfMagnitude(e: real, a: real)
    requires a == e || a == -e
    ensures e * e == a * a
  {
  }

  /** A tolerance that setMaxIKError stores squared accepts, in the
      threshold test, exactly the error norms below the given one. */
  lemma SquaredToleranceAcceptsSmallerNorms(d: real, e: real)
    requires 0.0 <= d
    ensures d * d < e * e <==> d < AbsReal(e)
  {
    var a := AbsReal(e);
    SquareOfMagnitude(e, a);
    if d < a {
      SquareStrictlyMonotone(d, a);
    } else if a < d {
      SquareStrictlyMonotone(a, d);
    }
  }
}
