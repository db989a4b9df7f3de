/**
 * hrp::JointLimitTable: the limit of one joint as a function of the angle
 * of another (target) joint, tabulated at every integer degree of the
 * target's range and interpolated linearly in between.
 */
module JointLimitTables {
  import opened NumericConstants
  import opened RealArith

  datatype JointLimitTable = JointLimitTable(
    targetJointId: int,
    targetLlimitAngle: int,
    targetUlimitAngle: int,
    llimitTable: seq<real>,
    ulimitTable: seq<real>)
  {
    /** The target range is not empty and both tables hold an entry for each
        of its integer degrees. */
    predicate Valid()
    {
      && targetLlimitAngle <= targetUlimitAngle
      && targetUlimitAngle - targetLlimitAngle < |llimitTable|
      && targetUlimitAngle - targetLlimitAngle < |ulimitTable|
    }

    /** The table row of an integer target angle: the angle clamped into the
        target range, counted from its lower end. */
    function Index(degree: int): (idx: nat)
      requires targetLlimitAngle <= targetUlimitAngle
      ensures idx <= targetUlimitAngle - targetLlimitAngle
      ensures targetLlimitAngle <= degree <= targetUlimitAngle ==> idx == degree - targetLlimitAngle
      ensures degree <= targetLlimitAngle ==> idx == 0
      ensures targetUlimitAngle <= degree ==> idx == targetUlimitAngle - targetLlimitAngle
    {
      var raised := if targetLlimitAngle < degree then degree else targetLlimitAngle;
      (if raised < targetUlimitAngle then raised else targetUlimitAngle) - targetLlimitAngle
    }

    /** One entry of the lower- or upper-limit table, in degrees. */
    function Entry(idx: nat, isLlimitAngle: bool): real
      requires Valid() && idx <= targetUlimitAngle - targetLlimitAngle
    {
      if isLlimitAngle then llimitTable[idx] else ulimitTable[idx]
    }
  }

  /** x weighted by w. */
  function Weigh(x: real, w: real): real
  {
    x * w
  }

  /** The interpolation a * (1 - t) + b * t between two table entries. */
  function Lerp(a: real, b: real, t: real): real
  {
    Weigh(a, 1.0 - t) + Weigh(b, t)
  }

  /** A linear interpolation with weight in [0, 1] stays between its ends. */
  lemma LerpBetween(a: real, b: real, t: real)
    requires 0.0 <= t <= 1.0
    ensures a <= b ==> a <= Lerp(a, b, t) <= b
    ensures b <= a ==> b <= Lerp(a, b, t) <= a
  {
    WeightsSumToOne(a, t);
    WeightsSumToOne(b, t);
    if a <= b {
      WeighOrder(a, b, t);
      WeighOrder(a, b, 1.0 - t);
    } else {
      WeighOrder(b, a, t);
      WeighOrder(b, a, 1.0 - t);
    }
  }

  lemma WeightsSumToOne(x: real, t: real)
    ensures Weigh(x, 1.0 - t) + Weigh(x, t) == x
  {
  }

  lemma WeighOrder(x: real, y: real, w: real)
    requires x <= y && 0.0 <= w
    ensures Weigh(x, w) <= Weigh(y, w)
  {
  }

  /** The interpolated limit, in degrees, for a target angle in degrees: the
      entries of the two integer degrees around the angle (each clamped into
      the table), weighted by the fractional part of the angle. */
  function InterpolatedDegrees(t: JointLimitTable, targetAngle: real, isLlimitAngle: bool): (d: real)
    requires t.Valid()
    ensures 0.0 <= targetAngle - targetAngle.Floor as real < 1.0
    ensures var e0 := t.Entry(t.Index(targetAngle.Floor), isLlimitAngle);
      var e1 := t.Entry(t.Index(targetAngle.Floor + 1), isLlimitAngle);
      MinReal(e0, e1) <= d <= MaxReal(e0, e1)
    ensures targetAngle == targetAngle.Floor as real ==> d == t.Entry(t.Index(targetAngle.Floor), isLlimitAngle)
  {
    var floor := targetAngle.Floor;
    var ratio := targetAngle - floor as real;
    var e0 := t.Entry(t.Index(floor), isLlimitAngle);
    var e1 := t.Entry(t.Index(floor + 1), isLlimitAngle);
    LerpBetween(e0, e1, ratio);
    Lerp(e0, e1, ratio)
  }

  /** JointLimitTable::getInterpolatedLimitAngle: the angle is converted to
      degrees, interpolated in the table and converted back to radians. */
  function GetInterpolatedLimitAngle(t: JointLimitTable, targetJointAngle: real, isLlimitAngle: bool): (r: real)
    requires t.Valid()
    ensures var degree := (targetJointAngle * 180.0 / PI).Floor;
      var e0 := t.Entry(t.Index(degree), isLlimitAngle) * PI / 180.0;
      var e1 := t.Entry(t.Index(degree + 1), isLlimitAngle) * PI / 180.0;
      MinReal(e0, e1) <= r <= MaxReal(e0, e1)
  {
    InterpolatedDegrees(t, targetJointAngle * 180.0 / PI, isLlimitAngle) * PI / 180.0
  }

  /** At a whole number of degrees the limit is the table entry itself. */
  lemma IntegerDegreeIsTableEntry(t: JointLimitTable, degree: int, isLlimitAngle: bool)
    requires t.Valid()
    ensures GetInterpolatedLimitAngle(t, degree as real * PI / 180.0, isLlimitAngle)
         == t.Entry(t.Index(degree), isLlimitAngle) * PI / 180.0
  {
    assert degree as real * PI / 180.0 * 180.0 / PI == degree as real;
  }

  /** Below the target range the limit is the first entry, above it the
      last. */
  lemma ClampedOutsideRange(t: JointLimitTable, targetAngle: real, isLlimitAngle: bool)
    requires t.Valid()
    ensures targetAngle <= t.targetLlimitAngle as real - 1.0 ==>
      InterpolatedDegrees(t, targetAngle, isLlimitAngle) == t.Entry(0, isLlimitAngle)
    ensures t.targetUlimitAngle as real <= targetAngle ==>
      InterpolatedDegrees(t, targetAngle, isLlimitAngle) == t.Entry(t.targetUlimitAngle - t.targetLlimitAngle, isLlimitAngle)
  {
    var floor := targetAngle.Floor;
    var ratio := targetAngle - floor as real;
    if targetAngle <= t.targetLlimitAngle as real - 1.0 {
      assert floor + 1 <= t.targetLlimitAngle;
      assert Lerp(t.Entry(0, isLlimitAngle), t.Entry(0, isLlimitAngle), ratio) == t.Entry(0, isLlimitAngle);
    }
    if t.targetUlimitAngle as real <= targetAngle {
      var last := t.Entry(t.targetUlimitAngle - t.targetLlimitAngle, isLlimitAngle);
      assert t.targetUlimitAngle <= floor;
      assert Lerp(last, last, ratio) == last;
    }
  }
}
