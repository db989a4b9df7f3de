# JointPathEx inverse kinematics, modelled in Dafny

This project models the numerical core of hrpsys-base's `hrp::JointPathEx`, found in
`rtc/ImpedanceController/JointPathEx.cpp`. `JointPathEx` is a serial chain of joints
from a base link to an end link. `calcInverseKinematics2` drives the end link toward a
target position and orientation by a damped, weighted Newton iteration. Each step
(`calcInverseKinematics2Loop`) does six things:

- It weighs every joint by the Chang–Dubey joint-limit cost, with a hysteresis rule.
- It damps the singularity-robust (SR) inverse when the manipulability drops below a limit.
- It adds two optional null-space motions: one pushes away from the joint limits, the
  other pulls toward reference angles.
- It scales the joint velocity uniformly so that every joint stays inside its velocity
  window `[lvlimit*dt, uvlimit*dt]`.
- It rejects a step that contains NaN or an infinity.
- It moves the joints by `LAMBDA * dq` and clamps them into `[llimit, ulimit]`.

The loop stops when one of three things happens:

- the convergence test passes (threshold mode or best-effort mode);
- a step is rejected;
- the iteration budget runs out, and then the saved angles are put back.

The model also covers `JointLimitTable::getInterpolatedLimitAngle`.

## Structure

| Module | What it holds |
|---|---|
| `Ieee` | A `double` as `Finite(real) \| PosInf \| NegInf \| NaN`. `Add`, `Mul`, `Div`, `Abs` and `Neg` track how NaN and the infinities propagate. Finite values use exact real arithmetic. |
| `RealArith` | Small facts about exact reals that the other modules share: absolute value, min and max, a vector scaled by a factor (a gain or `dt`), and signs of products. |
| `JointLimitWeighting` | The limit cost of each joint (lines 132-151) and the hysteresis weight (153-158). |
| `SingularityDamping` | The damping factor `gain * (1 - m/limit)^2` (175-178). |
| `NullspaceMotion` | The avoidance input (229-235), the reference input (257-259), the projection through the null-space projector, and the candidate velocity (211, 250, 273). |
| `VelocityLimit` | The minimal speed ratio (283-293) and the uniform scaling (294-306). |
| `IKStep` | The step as functions of a `Chain` value. `StepVelocity` is the velocity after saturation. `NextAngles` is the moved and clamped angles (322-337). |
| `SolveLoop` | The solve loop as a recursive function `Iterate`, split into `Iterate`, `Test` and `Attempt`. It returns an `Outcome`: `Converged`, `Rejected` or `Exhausted`. |
| `IKSolver.JointPathEx` | The class itself. Its arrays and fields are updated in place by methods with loops, and each method is proved against the functions above. |
| `JointLimitTables` | The joint-limit table and its interpolation (443-455). |

### Kinematics oracle

The kinematics of the robot (Jacobian, forward kinematics, SR-inverse) are an oracle
value `IKStep.Kinematics`. It has three fields:

- `poseError(q)`: the squared position and rotation errors at the angles `q`;
- `manipulability(q)`: the value `sqrt(det(J J^T))`, which is never negative;
- `srInverse(q, w, k)`: the product `Jinv * v` and the projector `Jnull = I - Jinv J`,
  for the weights `w` and the damping `k`.

Everything the loop computes from these values is modelled explicitly.

## Model

| member | source | states |
|---|---|---|
| `IKSolver.JointPathEx.constructor` | rtc/ImpedanceController/JointPathEx.cpp:89-100 | The chain holds the given joints and limits, every optional weight is 1, `sr_gain` is 1, the manipulability limit is 0.1 and its gain 0.001, the position and rotation tolerances are 1e-8 and 1e-6, the iteration limit is 50, and `dt` is the control cycle |
| `IKSolver.JointPathEx.SetMaxIKError` | rtc/ImpedanceController/JointPathEx.cpp:102-105 | The position and rotation tolerances become the squares of the given errors, and nothing else changes |
| `IKSolver.JointPathEx.SetMaxIKBestEffortError` | rtc/ImpedanceController/JointPathEx.cpp:107-110 | The best-effort tolerance becomes the square of the given error |
| `IKSolver.JointPathEx.SetMaxIKIteration` | rtc/ImpedanceController/JointPathEx.cpp:112-114 | The iteration limit becomes the given count |
| `IKSolver.JointPathEx.JacobianInverseNullspace` | rtc/ImpedanceController/JointPathEx.cpp:116-188 | Returns the SR-solution for the current angles, the hysteresis weights and the manipulability damping. Afterwards the stored cost of each joint is its limit cost at the current angles. |
| `IKSolver.JointPathEx.WeighJoints` | rtc/ImpedanceController/JointPathEx.cpp:132-159 | The loop's weights equal `IKStep.Weights` of the state before the call, and each joint's stored cost becomes its current limit cost |
| `JointLimitWeighting.AdjustedAngle` | rtc/ImpedanceController/JointPathEx.cpp:136-142 | After the adjustment the angle is either within one degree of both limits or equal to neither, so the cost formula never divides by zero. An angle far from both limits is left unchanged. |
| `JointLimitWeighting.LimitCost` | rtc/ImpedanceController/JointPathEx.cpp:144-151 | The cost is never negative, and it is DBL_MAX when the adjusted angle is within one degree of both limits |
| `JointLimitWeighting.CostZeroAtCentre` | rtc/ImpedanceController/JointPathEx.cpp:148-149 | At the centre of a range wider than two degrees the gradient of the criterion vanishes, so the cost is 0 |
| `JointLimitWeighting.NarrowRangeHasMaximalCost` | rtc/ImpedanceController/JointPathEx.cpp:137-146 | For a joint whose range is at most one degree wide, every angle inside the range has cost DBL_MAX |
| `JointLimitWeighting.HysteresisWeight` | rtc/ImpedanceController/JointPathEx.cpp:153-157 | When the cost decreased, the weight is the full optional weight. Otherwise it is the optional weight divided by 1 + cost. It stays in `(0, optional]`, and it is strictly smaller when the cost is positive and did not decrease. |
| `IKStep.Weights` | rtc/ImpedanceController/JointPathEx.cpp:132-159 | Each joint's weight is the hysteresis weight of its current cost against its stored cost. It is positive and at most the optional weight, and it equals the optional weight when the cost fell. |
| `IKStep.Costs` | rtc/ImpedanceController/JointPathEx.cpp:132-158 | One cost per joint, each the non-negative limit cost of that joint |
| `SingularityDamping.Damping` | rtc/ImpedanceController/JointPathEx.cpp:174-178 | The damping is 0 when the manipulability reaches the limit. Otherwise it lies in `(0, gain]` for a positive gain. |
| `SingularityDamping.CurveMonotone` | rtc/ImpedanceController/JointPathEx.cpp:176-178 | `gain * s^2` does not decrease as `s` grows in `(0, 1]` |
| `SingularityDamping.DampingNonIncreasing` | rtc/ImpedanceController/JointPathEx.cpp:174-178 | Higher manipulability never gives more damping |
| `IKStep.Damping` | rtc/ImpedanceController/JointPathEx.cpp:174-178 | The chain's damping is 0 at or above the manipulability limit and lies within `[0, gain]` |
| `NullspaceMotion.SignedSquare` | rtc/ImpedanceController/JointPathEx.cpp:234 | Keeps the sign and finiteness of `r`, maps `[-1, 1]` into `[-1, 1]`, and passes NaN and the infinities through unchanged |
| `NullspaceMotion.NormalisedInput` | rtc/ImpedanceController/JointPathEx.cpp:233-234 | For ordered limits, the normalised offset from the middle of the range is finite. It is positive exactly when the angle is below the middle and negative exactly when it is above. It lies in `[-1, 1]` while the angle is within the limits. |
| `NullspaceMotion.AvoidanceInput` | rtc/ImpedanceController/JointPathEx.cpp:229-235 | The avoidance input is finite exactly when the two limits differ. For a positive scale it points toward the middle of the range, and inside the range it is bounded by the scale. |
| `NullspaceMotion.AvoidanceInputs` | rtc/ImpedanceController/JointPathEx.cpp:228-236 | One input per joint. The vector is all finite exactly when no joint has equal lower and upper limits. |
| `NullspaceMotion.ReferenceInput` | rtc/ImpedanceController/JointPathEx.cpp:258 | The input is 0 at the reference angle. For a positive scale it points from the current angle toward the reference. |
| `NullspaceMotion.ReferenceInputs` | rtc/ImpedanceController/JointPathEx.cpp:256-259 | One input per joint, each read through the joint's id. When every joint is at its reference, the vector is 0. |
| `NullspaceMotion.RowSum` | rtc/ImpedanceController/JointPathEx.cpp:250 | A row of `Jnull * u` is finite exactly when every projector entry and every input it sums is finite |
| `NullspaceMotion.RowSumOfZero` | rtc/ImpedanceController/JointPathEx.cpp:250 | With a finite projector, a zero input projects to exactly zero |
| `NullspaceMotion.AddProjectedFinite` | rtc/ImpedanceController/JointPathEx.cpp:250 | `dq + Jnull * u` is all finite exactly when `dq`, `u` and the projector are all finite |
| `NullspaceMotion.AddProjectedZero` | rtc/ImpedanceController/JointPathEx.cpp:273 | Adding the projection of a zero input through a finite projector leaves `dq` unchanged, NaN and infinite entries included |
| `NullspaceMotion.AddProjected` | rtc/ImpedanceController/JointPathEx.cpp:223-274 | When a term is absent, `dq` is unchanged. When it is present, the result is finite exactly when `dq`, the term and the projector are finite. |
| `NullspaceMotion.CandidateVelocity` | rtc/ImpedanceController/JointPathEx.cpp:211-274 | The velocity before saturation is all finite exactly when `Jinv * v` is finite, the avoidance term is finite if present, and the projector is finite if either term is present |
| `IKStep.AvoidanceTerm` | rtc/ImpedanceController/JointPathEx.cpp:223-235 | Present exactly when `avoid_gain > 0`. Then it is finite exactly when no joint's limits coincide, and for a joint with a proper range and a positive optional weight it is positive below the middle of the range and negative above it, so it pushes the joint toward the middle |
| `IKStep.ReferenceTerm` | rtc/ImpedanceController/JointPathEx.cpp:253-259 | Present exactly when `reference_gain > 0` and a reference vector is given. Then it is 0 for a joint at its reference angle (looked up by joint id), and for a joint with a positive optional weight it is positive below the reference and negative above it |
| `IKStep.ReferenceInertAtReference` | rtc/ImpedanceController/JointPathEx.cpp:253-274 | At the reference angles, with a finite projector, the reference term does not change the candidate velocity, whether or not that velocity is finite |
| `IKSolver.JointPathEx.AvoidanceVector` | rtc/ImpedanceController/JointPathEx.cpp:228-236 | The loop builds exactly `NullspaceMotion.AvoidanceInputs` of the current angles and limits, with scales `optional_weight * avoid_gain` |
| `IKSolver.JointPathEx.ReferenceVector` | rtc/ImpedanceController/JointPathEx.cpp:256-259 | The loop builds exactly `NullspaceMotion.ReferenceInputs` of the current angles, with scales `optional_weight * reference_gain` |
| `VelocityLimit.JointRatio` | rtc/ImpedanceController/JointPathEx.cpp:286-291 | The ratio is 1 inside the window. For a window containing 0, it is `|lo/dq|` below the window and `|hi/dq|` above it. A NaN velocity gives 1 (both comparisons are false), an infinite one gives 0, and the ratio is never negative. |
| `VelocityLimit.Combine` | rtc/ImpedanceController/JointPathEx.cpp:292 | `max(min(m, r), 0)`: never negative and never above `m`. With a finite `r` it is the minimum, and NaN or +inf leaves `m`. |
| `VelocityLimit.SpeedRatio` | rtc/ImpedanceController/JointPathEx.cpp:284-293 | The minimal speed ratio lies in `[0, 1]` |
| `VelocityLimit.Scaled` | rtc/ImpedanceController/JointPathEx.cpp:294-306 | When the ratio is below 1, every finite velocity is multiplied by it. Otherwise the velocity is unchanged. Finiteness is kept. |
| `VelocityLimit.Saturated` | rtc/ImpedanceController/JointPathEx.cpp:283-306 | Saturation keeps the length and keeps all-finiteness in both directions |
| `VelocityLimit.RatioOneWhenWithin` | rtc/ImpedanceController/JointPathEx.cpp:284-293 | When every velocity so far lies in its window, the running ratio is still 1 |
| `VelocityLimit.SaturationKeepsStepWithinLimits` | rtc/ImpedanceController/JointPathEx.cpp:283-306 | A finite velocity already inside its windows is left unchanged |
| `VelocityLimit.RatioNonIncreasing` | rtc/ImpedanceController/JointPathEx.cpp:292 | The running ratio never increases along the joints |
| `VelocityLimit.RatioBelowJoint` | rtc/ImpedanceController/JointPathEx.cpp:292 | The running ratio is at most the finite ratio of every joint already seen |
| `VelocityLimit.RatioAtLeast` | rtc/ImpedanceController/JointPathEx.cpp:284-293 | A factor in `[0, 1]` that is at most every joint's ratio is at most the running ratio |
| `VelocityLimit.BelowJointRatioIsSafe` | rtc/ImpedanceController/JointPathEx.cpp:286-291 | A factor in `[0, 1]` that is at most a joint's ratio scales that joint's velocity into a window containing 0 |
| `VelocityLimit.SafeFactorBelowJointRatio` | rtc/ImpedanceController/JointPathEx.cpp:286-291 | Conversely, any factor in `[0, 1]` that scales the velocity into the window is at most the joint's ratio |
| `VelocityLimit.SpeedRatioIsSafe` | rtc/ImpedanceController/JointPathEx.cpp:283-301 | With windows containing 0, scaling by the minimal speed ratio puts every finite velocity in its window |
| `VelocityLimit.SaturatedWithinBounds` | rtc/ImpedanceController/JointPathEx.cpp:283-306 | With windows containing 0, every finite joint velocity after saturation lies within `[lvlimit*dt, uvlimit*dt]` |
| `VelocityLimit.SpeedRatioIsLargestSafeFactor` | rtc/ImpedanceController/JointPathEx.cpp:283-301 | For a finite velocity, the speed ratio is safe for every joint, and any factor in `[0, 1]` that is safe for every joint is at most the ratio: it is the largest uniform safe factor |
| `VelocityLimit.WindowsStraddleZero` | rtc/ImpedanceController/JointPathEx.cpp:287-290 | Velocity limits with `lvlimit <= 0 <= uvlimit` and `dt >= 0` give windows that contain 0 |
| `IKSolver.JointPathEx.SaturateVelocity` | rtc/ImpedanceController/JointPathEx.cpp:283-306 | The in-place saturation equals `VelocityLimit.Saturated` over the chain's windows |
| `IKSolver.JointPathEx.SpeedRatio` | rtc/ImpedanceController/JointPathEx.cpp:284-293 | The loop computes exactly `VelocityLimit.SpeedRatio` |
| `IKSolver.JointPathEx.ScaleVelocity` | rtc/ImpedanceController/JointPathEx.cpp:294-306 | The loop computes exactly `VelocityLimit.Scaled` |
| `IKSolver.JointPathEx.CheckFinite` | rtc/ImpedanceController/JointPathEx.cpp:308-315 | The result is true exactly when no entry is NaN or infinite |
| `IKStep.StepVelocity` | rtc/ImpedanceController/JointPathEx.cpp:210-306 | The saturated velocity is all finite exactly when the candidate velocity is |
| `IKStep.CollapsedRangeRejectsStep` | rtc/ImpedanceController/JointPathEx.cpp:223-235 | With `avoid_gain > 0` and a joint whose limits coincide, the step velocity is not finite, so the step is rejected |
| `IKStep.StepWithinVelocityWindows` | rtc/ImpedanceController/JointPathEx.cpp:283-306 | With velocity limits around 0, every finite joint velocity of the step lies in its window |
| `IKStep.ClampJoint` | rtc/ImpedanceController/JointPathEx.cpp:327-336 | For ordered limits the clamped angle lies within them. An angle already inside is unchanged, one above the upper limit becomes the upper limit, and one below the lower limit becomes the lower limit. |
| `IKStep.Clamped` | rtc/ImpedanceController/JointPathEx.cpp:327-337 | Each joint is clamped, and joints with ordered limits end within them |
| `IKStep.NextAngles` | rtc/ImpedanceController/JointPathEx.cpp:322-337 | The angles after an accepted step lie within ordered joint limits |
| `IKStep.ClampStaysBetween` | rtc/ImpedanceController/JointPathEx.cpp:327-336 | Clamping a target that starts from an angle inside the limits leaves the result between that angle and the target |
| `IKStep.JointMotionBounded` | rtc/ImpedanceController/JointPathEx.cpp:322-336 | A joint moved by `LAMBDA * v` and clamped moves by no more than `LAMBDA` times its velocity window |
| `IKStep.AnglesMoveWithinWindows` | rtc/ImpedanceController/JointPathEx.cpp:322-337 | The same holds for every joint of the chain |
| `IKStep.StepMotionBounded` | rtc/ImpedanceController/JointPathEx.cpp:283-337 | An accepted step moves every joint by at most `LAMBDA * [lvlimit*dt, uvlimit*dt]` |
| `IKSolver.JointPathEx.MoveJoints` | rtc/ImpedanceController/JointPathEx.cpp:322-337 | The in-place update equals `Clamped(Stepped(q, LAMBDA, dq))` |
| `IKSolver.JointPathEx.IKStep` | rtc/ImpedanceController/JointPathEx.cpp:190-342 | The step stores the new costs and returns true exactly when the step velocity is finite. On true the angles become `IKStep.NextAngles`. On false they are unchanged. |
| `SolveLoop.ResetWeighsFully` | rtc/ImpedanceController/JointPathEx.cpp:150-157 | After the reset of the stored costs to 1e20 (lines 372-375), the first weighting gives every joint whose cost is below 1e20 its full optional weight. A joint within one degree of both limits (cost DBL_MAX) is still divided by `1 + DBL_MAX` |
| `SolveLoop.UninterruptedNeverConverges` | rtc/ImpedanceController/JointPathEx.cpp:383-421 | With tolerances that no error meets, every pass either rejects its step or takes it; such a run never ends `Converged` |
| `SolveLoop.ExhaustedTakesBudgetSteps` | rtc/ImpedanceController/JointPathEx.cpp:383-421 | A run that ends `Exhausted` took an accepted step on every one of its budget passes: it ends exactly where the same passes end when no convergence test can stop them |
| `SolveLoop.AttemptStepAlongside` | rtc/ImpedanceController/JointPathEx.cpp:383-421 | After a failed convergence test, the pass hands on the same step, or the same rejection, as a pass in which no test can pass |
| `SolveLoop.ErrorSqr` | rtc/ImpedanceController/JointPathEx.cpp:405 | The best-effort error of clipped errors lies between 0 and `0.1^2 + 0.5^2` |
| `SolveLoop.ClippingKeepsThresholdVerdict` | rtc/ImpedanceController/JointPathEx.cpp:391-392 | For tolerances no larger than the clipping bounds, clipping does not change the verdict of the threshold test |
| `SolveLoop.FirstBestEffortTestFails` | rtc/ImpedanceController/JointPathEx.cpp:378-410 | Starting from `errsqr = DBL_MAX`, the best-effort test fails on the first pass for any tolerance up to 1 |
| `SolveLoop.IterateUnfolds` | rtc/ImpedanceController/JointPathEx.cpp:383-421 | One pass of the loop: an exhausted budget ends it, a passing test converges, a non-finite step is rejected with the new costs stored, and an accepted step continues from the moved angles with one pass fewer |
| `SolveLoop.AttemptStep` | rtc/ImpedanceController/JointPathEx.cpp:419-420 | After a failed test, the pass either ends in a rejection or continues from a chain with the same configuration and limits, which stays within limits when it started within ordered limits |
| `SolveLoop.IterateKeepsConfiguration` | rtc/ImpedanceController/JointPathEx.cpp:383-421 | The loop changes only the angles and the stored costs, and angles that start within ordered limits end within them |
| `SolveLoop.ConvergedMeetsThreshold` | rtc/ImpedanceController/JointPathEx.cpp:411-417 | In threshold mode, a converged outcome has both clipped errors under their tolerances at its final angles |
| `IKSolver.JointPathEx.SaveAndReset` | rtc/ImpedanceController/JointPathEx.cpp:372-375 | `qorg` is a fresh copy of the angles, and every stored cost becomes 1e20 |
| `IKSolver.JointPathEx.Restore` | rtc/ImpedanceController/JointPathEx.cpp:434-436 | The angles are put back to `qorg` |
| `IKSolver.JointPathEx.TryStep` | rtc/ImpedanceController/JointPathEx.cpp:419-420 | After a failed test, the in-place step ends the iteration as `Rejected` of the new state, or leaves it equal to `Iterate` from the new state with one pass fewer |
| `IKSolver.JointPathEx.Iteration` | rtc/ImpedanceController/JointPathEx.cpp:389-420 | One pass in place agrees with `SolveLoop.Iterate`: `Done` is `Converged`, `Failed` is `Rejected`, and `Continue` leaves the rest of the iteration to run from the new state and the new `errsqr` |
| `IKSolver.JointPathEx.Iterations` | rtc/ImpedanceController/JointPathEx.cpp:378-421 | The loop leaves the chain in the state `SolveLoop.Iterate` ends in, and reports convergence and rejection exactly as the outcome does |
| `IKSolver.JointPathEx.Solve` | rtc/ImpedanceController/JointPathEx.cpp:345-441 | A chain without joints succeeds exactly when the link path is not empty and the base is the end link. Otherwise it returns true exactly when the iteration converges, ends at the angles of a converged or rejected outcome, and puts the saved angles back when the budget runs out. |
| `IKSolver.SquaredToleranceAcceptsSmallerNorms` | rtc/ImpedanceController/JointPathEx.cpp:102-105 | Squaring the tolerance in `setMaxIKError` accepts exactly the norms below the absolute value of the tolerance |
| `JointLimitTables.JointLimitTable.Index` | rtc/ImpedanceController/JointPathEx.cpp:450 | The table row is the angle clamped into the target range, counted from the range's lower end |
| `JointLimitTables.LerpBetween` | rtc/ImpedanceController/JointPathEx.cpp:453-454 | A linear interpolation with weight in `[0, 1]` lies between its ends |
| `JointLimitTables.InterpolatedDegrees` | rtc/ImpedanceController/JointPathEx.cpp:443-455 | The interpolated limit lies between the two neighbouring table entries, and at a whole degree it is that degree's entry |
| `JointLimitTables.GetInterpolatedLimitAngle` | rtc/ImpedanceController/JointPathEx.cpp:443-455 | The limit in radians lies between the two table entries bracketing the target angle's whole degree, each converted to radians |
| `JointLimitTables.IntegerDegreeIsTableEntry` | rtc/ImpedanceController/JointPathEx.cpp:443-455 | At a whole number of degrees the limit in radians is the table entry converted to radians |
| `JointLimitTables.ClampedOutsideRange` | rtc/ImpedanceController/JointPathEx.cpp:449-454 | At least one degree below the target range the limit is the first entry, and at or above the range it is the last |

## Left out

- Floating-point rounding, overflow and signed zero are not modelled. Finite doubles are exact reals, and only the non-finite classes are tracked. The `isnan(r)` guard of the limit cost (line 150) therefore never fires: on exact reals the denominator is non-zero whenever the formula is evaluated.
- The summation order of Eigen's matrix–vector product is not modelled; `Jnull * u` is an exact sum row by row.
- The Jacobian, `calcSRInverse` (lines 40-62), `omegaFromRotEx` (lines 65-87), `sqrt(det(J J^T))` (line 174) and `calcForwardKinematics` are treated as external. They are the oracle `IKStep.Kinematics`. The target pose reaches the model only through the squared errors the oracle reports. The six-vector `v = (dp, omega)` is folded into the oracle's `Jinv * v`.
- The clipping of the pose error (lines 391-392) is modelled on the squared norms, `min(|dp|^2, 0.1^2)`. The clipped vectors themselves exist only inside the oracle.
- `IKSolver.JointPathEx.Solve`: `MAX_IK_ITERATION` is a function-level `static const`, latched from `maxIKIteration` by the first call of any instance. The model takes it as the parameter `maxIteration` and does not capture the latch.
- `IKSolver.JointPathEx.Solve`: for a chain without joints whose base is its end link, the assignment of the target pose to the base link (lines 358-359) is not modelled; only the return value is.
- The oracle's `poseError(q)` assumes that the link poses match the joint angles when a solve starts. The source's first pass reads the end link's `p` and `R` (`target`, lines 389-390) without calling `calcForwardKinematics` first, so a caller that changed the angles without updating the poses sees a stale first error; the model does not capture that.
- The error reports after a failed solve (lines 423-433), the `operator<<` printers (lines 12-32), every `DEBUG` branch and the `std::cerr` warnings are output only and are not modelled.
- `readJointLimitTableFromProperties` and `readVirtualForceSensorParamFromProperties` (lines 457-523) parse property strings through foreign `coil` and Eigen calls. They are not modelled.
- `JointPathEx.h` is not part of this model. The initial values of `isBestEffortIKMode` and `maxIKErrorSqr` are taken as false and 0.
- `avoid_weight_gain` is left uninitialised by `resize` in the constructor. The model starts it at 0. `calcInverseKinematics2` resets it to 1e20 (line 374) before its first use. A direct call of `calcJacobianInverseNullspace` or `calcInverseKinematics2Loop` before any solve reads the uninitialised costs at line 153; there `IKSolver.JointPathEx.JacobianInverseNullspace` and `IKSolver.JointPathEx.IKStep` read 0.
- `JointLimitTables.GetInterpolatedLimitAngle`: `static_cast<int>(std::floor(...))` is modelled as an unbounded floor, without the overflow of `int`.
- `lib/util/SDLUtil.cpp` and `rtc/PushRecover/BodyIKMethod.h` are not part of this model.
