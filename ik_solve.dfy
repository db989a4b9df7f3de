/**
 * The specification of calcInverseKinematics2's iteration: how the
 * convergence tests read the pose error, and the outcome of running the
 * step until a test passes, a step is rejected or the budget runs out.
 */
module SolveLoop {
  import opened Ieee
  import opened Wrappers
  import opened IKStep
  import NumericConstants
  import opened RealArith

  /** The gain on q += LAMBDA * dq used by every solve. */
  const LAMBDA: real := 0.9

  /** Every solve resets each stored cost to 1e20 first, so the first
      weighting of a joint takes the w = opt branch. */
  const INITIAL_COST: real := 100000000000000000000.0

  /** The stored costs right after the reset. */
  function ResetCosts(n: nat): (r: seq<real>)
    ensures |r| == n && forall j :: 0 <= j < n ==> r[j] == INITIAL_COST
  {
    seq(n, _ => INITIAL_COST)
  }

  /** After the reset, the first weighting gives every joint whose cost is
      below 1e20 its full optional weight, while a joint within one degree of
      both limits (cost DBL_MAX) is still divided by 1 + DBL_MAX. */
  lemma ResetWeighsFully(c: Chain)
    requires c.Valid() && c.avoidWeightGain == ResetCosts(|c.q|)
    ensures forall j :: 0 <= j < |c.q| && Costs(c)[j] < INITIAL_COST ==> Weights(c)[j] == c.optionalWeight[j]
    ensures forall j :: 0 <= j < |c.q| && Costs(c)[j] == NumericConstants.DBL_MAX ==>
      Weights(c)[j] * (1.0 + NumericConstants.DBL_MAX) == c.optionalWeight[j]
  {
    assert INITIAL_COST <= NumericConstants.DBL_MAX;
  }

  /** The number of iterations `for (iter = 0; iter < max; iter++)` runs
      when none exits early. */
  function Budget(maxIteration: int): (b: nat)
    ensures maxIteration <= 0 ==> b == 0
    ensures 0 < maxIteration ==> b == maxIteration
  {
    if maxIteration > 0 then maxIteration else 0
  }

  /** dp is clipped to norm 0.1 and omega to norm 0.5: bounds on the
      squared norms. */
  const MAX_POSITION_STEP_SQR: real := 0.01
  const MAX_ROTATION_STEP_SQR: real := 0.25

  /** The squared norm of a vector after scaling it down to norm
      sqrt(bound) whenever it is longer. */
  function Clipped(sqr: real, bound: real): (r: real)
    ensures sqr <= bound ==> r == sqr
    ensures bound < sqr ==> r == bound
    ensures 0.0 <= sqr && 0.0 <= bound ==> 0.0 <= r
  {
    if sqr > bound then bound else sqr
  }

  /** The convergence tolerances: maxIKPosErrorSqr, maxIKRotErrorSqr and
      maxIKErrorSqr, and which of the two tests is in force. */
  datatype Tolerances = Tolerances(bestEffort: bool, posErrorSqr: real, rotErrorSqr: real, errorSqr: real)

  function PositionSqr(e: PoseError): real
  {
    Clipped(e.dpSqr, MAX_POSITION_STEP_SQR)
  }

  function RotationSqr(e: PoseError): real
  {
    Clipped(e.omegaSqr, MAX_ROTATION_STEP_SQR)
  }

  /** dp.dp + omega.omega of the clipped error, the quantity the best-effort
      test watches. */
  function ErrorSqr(e: PoseError): (r: real)
    ensures 0.0 <= r <= MAX_POSITION_STEP_SQR + MAX_ROTATION_STEP_SQR
  {
    PositionSqr(e) + RotationSqr(e)
  }

  /** The threshold test: both clipped squared errors under their tolerances. */
  predicate ThresholdMet(e: PoseError, tol: Tolerances)
  {
    PositionSqr(e) < tol.posErrorSqr && RotationSqr(e) < tol.rotErrorSqr
  }

  /** The best-effort test: the squared error changed by less than
      maxIKErrorSqr since the previous iteration. */
  predicate Stagnated(e: PoseError, previous: real, tol: Tolerances)
  {
    AbsReal(ErrorSqr(e) - previous) < tol.errorSqr
  }

  predicate Converges(e: PoseError, previous: real, tol: Tolerances)
  {
    if tol.bestEffort then Stagnated(e, previous, tol) else ThresholdMet(e, tol)
  }

  /** The errsqr the next iteration compares against: only the best-effort
      branch updates it. */
  function NextPrevious(e: PoseError, previous: real, tol: Tolerances): real
  {
    if tol.bestEffort then ErrorSqr(e) else previous
  }

  /** How the iteration ends, and the chain's state at that point (before
      any restore). */
  datatype Outcome = Converged(state: Chain) | Rejected(state: Chain) | Exhausted(state: Chain)

  /** The iteration with `budget` steps left, from chain c and the previous
      squared error `previous`. */
  function Iterate(kin: Kinematics, c: Chain, tol: Tolerances, previous: real, budget: nat,
                   avoidGain: real, referenceGain: real, referenceQ: Option<seq<real>>): (o: Outcome)
    requires c.Valid() && ReferenceReadable(c, referenceGain, referenceQ)
    decreases budget, 2
  {
    if budget == 0 then Exhausted(c)
    else Test(kin, c, tol, previous, budget, avoidGain, referenceGain, referenceQ)
  }

  /** An iteration with steps left: the convergence test in force, then the
      attempt at a step. */
  function Test(kin: Kinematics, c: Chain, tol: Tolerances, previous: real, budget: nat,
                avoidGain: real, referenceGain: real, referenceQ: Option<seq<real>>): (o: Outcome)
    requires c.Valid() && ReferenceReadable(c, referenceGain, referenceQ) && 0 < budget
    decreases budget, 1
  {
    var e := kin.poseError(c.q);
    if Converges(e, previous, tol) then Converged(c)
    else Attempt(kin, c, tol, NextPrevious(e, previous, tol), budget, avoidGain, referenceGain, referenceQ)
  }

  /** The part of an iteration after a failed convergence test: the costs
      are stored, then the step is rejected or taken and the iteration goes
      on with `nextPrevious` as its previous squared error. */
  function Attempt(kin: Kinematics, c: Chain, tol: Tolerances, nextPrevious: real, budget: nat,
                   avoidGain: real, referenceGain: real, referenceQ: Option<seq<real>>): (o: Outcome)
    requires c.Valid() && ReferenceReadable(c, referenceGain, referenceQ) && 0 < budget
    decreases budget, 0
  {
    var next := c.(avoidWeightGain := Costs(c));
    if !AllFinite(StepVelocity(kin, c, avoidGain, referenceGain, referenceQ)) then Rejected(next)
    else
      Iterate(kin, next.(q := NextAngles(kin, c, LAMBDA, avoidGain, referenceGain, referenceQ)),
              tol, nextPrevious, budget - 1, avoidGain, referenceGain, referenceQ)
  }

  /** One iteration of Iterate, case by case. */
  lemma IterateUnfolds(kin: Kinematics, c: Chain, tol: Tolerances, previous: real, budget: nat,
                       avoidGain: real, referenceGain: real, referenceQ: Option<seq<real>>)
    requires c.Valid() && ReferenceReadable(c, referenceGain, referenceQ)
    ensures var o := Iterate(kin, c, tol, previous, budget, avoidGain, referenceGain, referenceQ);
      budget == 0 ==> o == Exhausted(c)
    ensures var o := Iterate(kin, c, tol, previous, budget, avoidGain, referenceGain, referenceQ);
      var e := kin.poseError(c.q);
      0 < budget && Converges(e, previous, tol) ==> o == Converged(c)
    ensures var o := Iterate(kin, c, tol, previous, budget, avoidGain, referenceGain, referenceQ);
      var e := kin.poseError(c.q);
      0 < budget && !Converges(e, previous, tol) && !AllFinite(StepVelocity(kin, c, avoidGain, referenceGain, referenceQ)) ==>
        o == Rejected(c.(avoidWeightGain := Costs(c)))
    ensures var o := Iterate(kin, c, tol, previous, budget, avoidGain, referenceGain, referenceQ);
      var e := kin.poseError(c.q);
      0 < budget && !Converges(e, previous, tol) && AllFinite(StepVelocity(kin, c, avoidGain, referenceGain, referenceQ)) ==>
        o == Iterate(kin, c.(avoidWeightGain := Costs(c)).(q := NextAngles(kin, c, LAMBDA, avoidGain, referenceGain, referenceQ)),
                     tol, NextPrevious(e, previous, tol), budget - 1, avoidGain, referenceGain, referenceQ)
  {
    if budget > 0 {
      var e := kin.poseError(c.q);
      assert Iterate(kin, c, tol, previous, budget, avoidGain, referenceGain, referenceQ)
          == Test(kin, c, tol, previous, budget, avoidGain, referenceGain, referenceQ);
      if !Converges(e, previous, tol) {
        assert Test(kin, c, tol, previous, budget, avoidGain, referenceGain, referenceQ)
            == Attempt(kin, c, tol, NextPrevious(e, previous, tol), budget, avoidGain, referenceGain, referenceQ);
      }
    }
  }

  /** Tolerances no pose error meets: the threshold test would need a
      squared error below zero. */
  const NoTest: Tolerances := Tolerances(false, 0.0, 0.0, 0.0)

  lemma NoTestNeverConverges(e: PoseError, previous: real)
    ensures !Converges(e, previous, NoTest)
  {
  }

  /** The iteration from c with k passes in which no convergence test can
      stop it: it ends Exhausted exactly when k steps in a row are accepted. */
  function Uninterrupted(kin: Kinematics, c: Chain, k: nat, avoidGain: real, referenceGain: real, referenceQ: Option<seq<real>>): Outcome
    requires c.Valid() && ReferenceReadable(c, referenceGain, referenceQ)
  {
    Iterate(kin, c, NoTest, 0.0, k, avoidGain, referenceGain, referenceQ)
  }

  /** Uninterrupted passes never converge: each one either rejects its step
      or takes it. */
  lemma {:induction false} UninterruptedNeverConverges(kin: Kinematics, c: Chain, k: nat,
                                                       avoidGain: real, referenceGain: real, referenceQ: Option<seq<real>>)
    requires c.Valid() && ReferenceReadable(c, referenceGain, referenceQ)
    ensures !Uninterrupted(kin, c, k, avoidGain, referenceGain, referenceQ).Converged?
    decreases k
  {
    if k > 0 {
      NoTestNeverConverges(kin.poseError(c.q), 0.0);
      var accepted, next := AttemptStep(kin, c, NoTest, 0.0, k, avoidGain, referenceGain, referenceQ);
      if accepted {
        UninterruptedNeverConverges(kin, next, k - 1, avoidGain, referenceGain, referenceQ);
      }
    }
  }

  /** An iteration that runs out of budget took an accepted step on every
      one of its `budget` passes: it ends exactly where the same passes end
      when no convergence test can stop them. */
  lemma {:induction false} ExhaustedTakesBudgetSteps(kin: Kinematics, c: Chain, tol: Tolerances, previous: real, budget: nat,
                                                     avoidGain: real, referenceGain: real, referenceQ: Option<seq<real>>)
    requires c.Valid() && ReferenceReadable(c, referenceGain, referenceQ)
    ensures var o := Iterate(kin, c, tol, previous, budget, avoidGain, referenceGain, referenceQ);
      o.Exhausted? ==> Uninterrupted(kin, c, budget, avoidGain, referenceGain, referenceQ) == o
    decreases budget
  {
    var o := Iterate(kin, c, tol, previous, budget, avoidGain, referenceGain, referenceQ);
    if 0 < budget && o.Exhausted? {
      var e := kin.poseError(c.q);
      if Converges(e, previous, tol) {
        IterateUnfolds(kin, c, tol, previous, budget, avoidGain, referenceGain, referenceQ);
      } else {
        NoTestNeverConverges(e, 0.0);
        var accepted, next := AttemptStepAlongside(kin, c, tol, previous, budget, avoidGain, referenceGain, referenceQ);
        ExhaustedTakesBudgetSteps(kin, next, tol, NextPrevious(e, previous, tol), budget - 1, avoidGain, referenceGain, referenceQ);
      }
    }
  }

  /** A failed convergence test hands over the same step as a pass in which
      no test can pass. */
  lemma AttemptStepAlongside(kin: Kinematics, c: Chain, tol: Tolerances, previous: real, budget: nat,
                             avoidGain: real, referenceGain: real, referenceQ: Option<seq<real>>)
    returns (accepted: bool, next: Chain)
    requires c.Valid() && ReferenceReadable(c, referenceGain, referenceQ) && 0 < budget
    requires !Converges(kin.poseError(c.q), previous, tol)
    ensures next.Valid() && ReferenceReadable(next, referenceGain, referenceQ)
    ensures Iterate(kin, c, tol, previous, budget, avoidGain, referenceGain, referenceQ)
         == if accepted
            then Iterate(kin, next, tol, NextPrevious(kin.poseError(c.q), previous, tol), budget - 1, avoidGain, referenceGain, referenceQ)
            else Rejected(next)
    ensures Uninterrupted(kin, c, budget, avoidGain, referenceGain, referenceQ)
         == if accepted
            then Uninterrupted(kin, next, budget - 1, avoidGain, referenceGain, referenceQ)
            else Rejected(next)
  {
    NoTestNeverConverges(kin.poseError(c.q), 0.0);
    var nextPrevious := NextPrevious(kin.poseError(c.q), previous, tol);
    assert Iterate(kin, c, tol, previous, budget, avoidGain, referenceGain, referenceQ)
        == Attempt(kin, c, tol, nextPrevious, budget, avoidGain, referenceGain, referenceQ);
    assert Iterate(kin, c, NoTest, 0.0, budget, avoidGain, referenceGain, referenceQ)
        == Attempt(kin, c, NoTest, 0.0, budget, avoidGain, referenceGain, referenceQ);
    accepted := AllFinite(StepVelocity(kin, c, avoidGain, referenceGain, referenceQ));
    next := c.(avoidWeightGain := Costs(c));
    if accepted {
      next := next.(q := NextAngles(kin, c, LAMBDA, avoidGain, referenceGain, referenceQ));
    }
  }

  /** Everything but the joint angles and the stored costs is the same in
      two snapshots. */
  predicate SameConfiguration(a: Chain, b: Chain)
  {
    && a.llimit == b.llimit && a.ulimit == b.ulimit && a.lvlimit == b.lvlimit && a.uvlimit == b.uvlimit
    && a.optionalWeight == b.optionalWeight && a.jointId == b.jointId && a.dt == b.dt
    && a.srGain == b.srGain && a.manipulabilityLimit == b.manipulabilityLimit
    && a.manipulabilityGain == b.manipulabilityGain
  }

  /** An iteration whose convergence test fails, named: the chain it leaves
      (stored costs, and the new angles when the step is accepted) differs
      from c only in the angles and the costs, stays within well-ordered
      limits, and either ends the iteration as Rejected or hands it on. */
  lemma AttemptStep(kin: Kinematics, c: Chain, tol: Tolerances, previous: real, budget: nat,
                    avoidGain: real, referenceGain: real, referenceQ: Option<seq<real>>)
    returns (accepted: bool, next: Chain)
    requires c.Valid() && ReferenceReadable(c, referenceGain, referenceQ) && 0 < budget
    requires !Converges(kin.poseError(c.q), previous, tol)
    ensures next.Valid() && SameConfiguration(next, c) && ReferenceReadable(next, referenceGain, referenceQ)
    ensures c.LimitsOrdered() && c.WithinLimits() ==> next.WithinLimits()
    ensures Iterate(kin, c, tol, previous, budget, avoidGain, referenceGain, referenceQ)
         == if accepted
            then Iterate(kin, next, tol, NextPrevious(kin.poseError(c.q), previous, tol), budget - 1, avoidGain, referenceGain, referenceQ)
            else Rejected(next)
  {
    var nextPrevious := NextPrevious(kin.poseError(c.q), previous, tol);
    assert Iterate(kin, c, tol, previous, budget, avoidGain, referenceGain, referenceQ)
        == Test(kin, c, tol, previous, budget, avoidGain, referenceGain, referenceQ);
    assert Test(kin, c, tol, previous, budget, avoidGain, referenceGain, referenceQ)
        == Attempt(kin, c, tol, nextPrevious, budget, avoidGain, referenceGain, referenceQ);
    accepted := AllFinite(StepVelocity(kin, c, avoidGain, referenceGain, referenceQ));
    next := c.(avoidWeightGain := Costs(c));
    if accepted {
      next := next.(q := NextAngles(kin, c, LAMBDA, avoidGain, referenceGain, referenceQ));
    }
  }

  /** The iteration changes only the joint angles and the stored costs, and
      from angles within well-ordered limits it keeps them within. */
  lemma {:induction false} IterateKeepsConfiguration(kin: Kinematics, c: Chain, tol: Tolerances, previous: real, budget: nat,
                                                     avoidGain: real, referenceGain: real, referenceQ: Option<seq<real>>)
    requires c.Valid() && ReferenceReadable(c, referenceGain, referenceQ)
    ensures var o := Iterate(kin, c, tol, previous, budget, avoidGain, referenceGain, referenceQ);
      o.state.Valid() && SameConfiguration(o.state, c)
    ensures var o := Iterate(kin, c, tol, previous, budget, avoidGain, referenceGain, referenceQ);
      c.LimitsOrdered() && c.WithinLimits() ==> o.state.WithinLimits()
    decreases budget
  {
    if budget > 0 {
      var e := kin.poseError(c.q);
      if !Converges(e, previous, tol) {
        var accepted, next := AttemptStep(kin, c, tol, previous, budget, avoidGain, referenceGain, referenceQ);
        if accepted {
          IterateKeepsConfiguration(kin, next, tol, NextPrevious(e, previous, tol), budget - 1, avoidGain, referenceGain, referenceQ);
        }
      }
    }
  }

  /** A converged outcome passes the test in force at its angles: in
      threshold mode both clipped errors are under their tolerances. */
  lemma {:induction false} ConvergedMeetsThreshold(kin: Kinematics, c: Chain, tol: Tolerances, previous: real, budget: nat,
                                                   avoidGain: real, referenceGain: real, referenceQ: Option<seq<real>>)
    requires c.Valid() && ReferenceReadable(c, referenceGain, referenceQ) && !tol.bestEffort
    ensures var o := Iterate(kin, c, tol, previous, budget, avoidGain, referenceGain, referenceQ);
      o.Converged? ==> ThresholdMet(kin.poseError(o.state.q), tol)
    decreases budget
  {
    if budget > 0 {
      var e := kin.poseError(c.q);
      if !Converges(e, previous, tol) {
        var accepted, next := AttemptStep(kin, c, tol, previous, budget, avoidGain, referenceGain, referenceQ);
        if accepted {
          ConvergedMeetsThreshold(kin, next, tol, NextPrevious(e, previous, tol), budget - 1, avoidGain, referenceGain, referenceQ);
        }
      }
    }
  }

  /** Starting from errsqr = DBL_MAX, the best-effort test cannot pass on
      the first iteration for any tolerance up to 1, so best-effort mode
      always attempts at least one step. */
  lemma FirstBestEffortTestFails(e: PoseError, tol: Tolerances)
    requires tol.bestEffort && tol.errorSqr <= 1.0
    ensures !Converges(e, NumericConstants.DBL_MAX, tol)
  {
  }

  /** For tolerances no larger than the clipping bounds (the defaults 1e-8
      and 1e-6 are), clipping never changes the threshold test's verdict. */
  lemma ClippingKeepsThresholdVerdict(e: PoseError, tol: Tolerances)
    requires tol.posErrorSqr <= MAX_POSITION_STEP_SQR && tol.rotErrorSqr <= MAX_ROTATION_STEP_SQR
    ensures ThresholdMet(e, tol) <==> e.dpSqr < tol.posErrorSqr && e.omegaSqr < tol.rotErrorSqr
  {
  }
}
