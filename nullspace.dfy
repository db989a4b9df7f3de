/**
 * The null-space terms that JointPathEx::calcInverseKinematics2Loop adds to
 * the SR-inverse solution: the joint-limit avoidance input, the reference
 * posture input, and the product of the null-space projector with either.
 * The projector itself (I - J# J) comes from the linear algebra of the
 * solver and is taken as a given matrix of doubles.
 */
module NullspaceMotion {
  import opened Ieee
  import opened Wrappers
  import opened RealArith

  lemma ProductWithinUnit(x: real, y: real)
    requires -1.0 <= x <= 1.0 && 0.0 <= y <= 1.0
    ensures -1.0 <= x * y <= 1.0
  {
    if 0.0 <= x {
      assert x * y <= 1.0 * y;
    } else {
      assert (-x) * y <= 1.0 * y;
    }
  }

  lemma SignedSquareWithinUnit(x: real)
    ensures -1.0 <= x <= 1.0 ==> -1.0 <= x * AbsReal(x) <= 1.0
  {
    if -1.0 <= x <= 1.0 {
      ProductWithinUnit(x, AbsReal(x));
    }
  }

  lemma ScaleWithinUnit(c: real, s: real)
    ensures 0.0 <= c && -1.0 <= s <= 1.0 ==> -c <= c * s <= c
  {
  }

  /** x*|x| has the sign of x and stays within [-1, 1] when x does. */
  lemma SignedSquareOf(x: real)
    ensures 0.0 < x ==> 0.0 < x * AbsReal(x)
    ensures x < 0.0 ==> x * AbsReal(x) < 0.0
    ensures x == 0.0 ==> x * AbsReal(x) == 0.0
    ensures -1.0 <= x <= 1.0 ==> -1.0 <= x * AbsReal(x) <= 1.0
  {
    if 0.0 < x {
      ProductPositive(x, AbsReal(x));
    } else if x < 0.0 {
      ProductNegative(AbsReal(x), x);
      assert AbsReal(x) * x == x * AbsReal(x);
    }
    SignedSquareWithinUnit(x);
  }

  /** The signed square of the normalised offset: r*r when r > 0 and -r*r
      otherwise, that is r*|r| on finite values. It keeps the sign of r,
      stays within [-1, 1] when r does, and NaN and the infinities go through
      unchanged. */
  function SignedSquare(r: Double): (s: Double)
    ensures s.Finite? <==> r.Finite?
    ensures r.Finite? ==> (0.0 < s.value <==> 0.0 < r.value) && (s.value < 0.0 <==> r.value < 0.0)
    ensures r.Finite? && -1.0 <= r.value <= 1.0 ==> -1.0 <= s.value <= 1.0
    ensures !r.Finite? ==> s == r
  {
    match r
    case Finite(x) =>
      SignedSquareOf(x);
      Finite(x * AbsReal(x))
    case PosInf => PosInf
    case NegInf => NegInf
    case NaN => NaN
  }

  lemma QuotientWithinUnit(a: real, h: real)
    requires 0.0 < h
    ensures -h <= a <= h ==> -1.0 <= a / h <= 1.0
  {
  }

  lemma QuotientSign(a: real, h: real)
    requires 0.0 < h
    ensures (0.0 < a / h <==> 0.0 < a) && (a / h < 0.0 <==> a < 0.0)
  {
    if 0.0 < a {
      ProductPositive(a, 1.0 / h);
    } else if a < 0.0 {
      ProductNegative(1.0 / h, a);
    }
  }

  lemma ProductSign(c: real, v: real)
    requires 0.0 < c
    ensures (0.0 < c * v <==> 0.0 < v) && (c * v < 0.0 <==> v < 0.0)
  {
    if 0.0 < v {
      ProductPositive(c, v);
    } else if v < 0.0 {
      ProductNegative(c, v);
    }
  }

  /** The avoidance input of a joint with a proper range, before scaling:
      the signed square of (mid - q) / half-range. */
  function Normalised(angle: real, lower: real, upper: real): (s: Double)
  {
    SignedSquare(Div((upper + lower) / 2.0 - angle, Finite((upper - lower) / 2.0)))
  }

  /** For a proper range the normalised input is finite, has the sign of
      mid - q, and lies within [-1, 1] while the joint is inside its range. */
  lemma NormalisedInput(angle: real, lower: real, upper: real)
    requires lower < upper
    ensures var s := Normalised(angle, lower, upper);
      && s.Finite?
      && (0.0 < s.value <==> angle < (lower + upper) / 2.0)
      && (s.value < 0.0 <==> (lower + upper) / 2.0 < angle)
      && (lower <= angle <= upper ==> -1.0 <= s.value <= 1.0)
  {
    var a := (upper + lower) / 2.0 - angle;
    var h := (upper - lower) / 2.0;
    assert Div(a, Finite(h)) == Finite(a / h);
    QuotientSign(a, h);
    QuotientWithinUnit(a, h);
  }

  /** Scaling a finite input by a positive scale keeps its sign, and a
      non-negative scale maps [-1, 1] into [-scale, scale]. */
  lemma ScaledInput(scale: real, s: Double)
    requires s.Finite?
    ensures var u := Mul(Finite(scale), s);
      && u.Finite?
      && (0.0 < scale ==> (0.0 < u.value <==> 0.0 < s.value) && (u.value < 0.0 <==> s.value < 0.0))
      && (0.0 <= scale && -1.0 <= s.value <= 1.0 ==> -scale <= u.value <= scale)
  {
    var v := s.value;
    assert Mul(Finite(scale), s).value == scale * v;
    ScaleWithinUnit(scale, v);
    if 0.0 < scale {
      ProductSign(scale, v);
    }
  }

  /** The avoidance input of one joint, scale * s where scale is the joint's
      optional weight times the avoidance gain and s is the signed square of
      (mid - q) / half-range: it pushes the joint toward the middle of its
      range, by at most scale while the joint is inside its range. A joint
      whose two limits coincide divides by zero, which no scale can turn back
      into a finite value. */
  function AvoidanceInput(angle: real, lower: real, upper: real, scale: real): (u: Double)
    ensures lower != upper ==> u.Finite?
    ensures lower == upper ==> !u.Finite?
    ensures lower < upper && 0.0 < scale ==>
      (0.0 < u.value <==> angle < (lower + upper) / 2.0) && (u.value < 0.0 <==> (lower + upper) / 2.0 < angle)
    ensures lower < upper && lower <= angle <= upper && 0.0 <= scale ==> -scale <= u.value <= scale
  {
    var s := Normalised(angle, lower, upper);
    if lower < upper then
      NormalisedInput(angle, lower, upper);
      ScaledInput(scale, s);
      Mul(Finite(scale), s)
    else Mul(Finite(scale), s)
  }

  /** The reference input of one joint, scale * (reference - q), where scale
      is the joint's optional weight times the reference gain: it pulls the
      joint toward its reference angle and vanishes there. */
  function ReferenceInput(reference: real, angle: real, scale: real): (u: real)
    ensures angle == reference ==> u == 0.0
    ensures 0.0 < scale ==> (0.0 < u <==> angle < reference) && (u < 0.0 <==> reference < angle)
  {
    if 0.0 < scale && angle < reference then
      ProductPositive(scale, reference - angle);
      scale * (reference - angle)
    else if 0.0 < scale && reference < angle then
      ProductNegative(scale, reference - angle);
      scale * (reference - angle)
    else scale * (reference - angle)
  }

  /** The avoidance input vector: one AvoidanceInput per joint, scaled by the
      joint's optional weight times the avoidance gain. */
  function AvoidanceInputs(q: seq<real>, lower: seq<real>, upper: seq<real>, scale: seq<real>): (u: seq<Double>)
    requires |lower| == |q| && |upper| == |q| && |scale| == |q|
    ensures |u| == |q|
    ensures forall j :: 0 <= j < |q| ==> u[j] == AvoidanceInput(q[j], lower[j], upper[j], scale[j])
    ensures AllFinite(u) <==> forall j :: 0 <= j < |q| ==> lower[j] != upper[j]
  {
    seq(|q|, j requires 0 <= j < |q| => AvoidanceInput(q[j], lower[j], upper[j], scale[j]))
  }

  /** Every reference entry a joint reads: the reference posture is indexed
      by joint id, not by position in the chain. */
  predicate Indexes(ids: seq<int>, reference: seq<real>)
  {
    forall j :: 0 <= j < |ids| ==> 0 <= ids[j] < |reference|
  }

  /** The reference input vector: one ReferenceInput per joint, against the
      reference angle stored under that joint's id. */
  function ReferenceInputs(q: seq<real>, ids: seq<int>, reference: seq<real>, scale: seq<real>): (u: seq<real>)
    requires |ids| == |q| && |scale| == |q| && Indexes(ids, reference)
    ensures |u| == |q|
    ensures forall j :: 0 <= j < |q| ==> u[j] == ReferenceInput(reference[ids[j]], q[j], scale[j])
    ensures (forall j :: 0 <= j < |q| ==> q[j] == reference[ids[j]]) ==> forall j :: 0 <= j < |q| ==> u[j] == 0.0
  {
    seq(|q|, j requires 0 <= j < |q| => ReferenceInput(reference[ids[j]], q[j], scale[j]))
  }

  /** The null-space projector I - J# J, as a matrix of doubles. */
  type Projector = (nat, nat) -> Double

  predicate ProjectorFinite(N: Projector, n: nat)
  {
    forall j: nat, i: nat :: j < n && i < n ==> N(j, i).Finite?
  }

  /** Row j of N * u, summed over the first k columns. */
  function RowSum(N: Projector, u: seq<Double>, j: nat, k: nat): (r: Double)
    requires k <= |u|
    ensures r.Finite? <==> forall i: nat :: i < k ==> N(j, i).Finite? && u[i].Finite?
  {
    if k == 0 then Finite(0.0) else Add(RowSum(N, u, j, k - 1), Mul(N(j, k - 1), u[k - 1]))
  }

  /** A zero input contributes nothing through a finite projector. */
  lemma {:induction false} RowSumOfZero(N: Projector, u: seq<Double>, j: nat, k: nat)
    requires k <= |u|
    requires forall i: nat :: i < k ==> N(j, i).Finite? && u[i] == Finite(0.0)
    ensures RowSum(N, u, j, k) == Finite(0.0)
  {
    if k > 0 {
      RowSumOfZero(N, u, j, k - 1);
    }
  }

  /** N * u for an n-vector u. */
  function Project(N: Projector, u: seq<Double>): (r: seq<Double>)
    ensures |r| == |u|
    ensures forall j :: 0 <= j < |u| ==> r[j] == RowSum(N, u, j, |u|)
  {
    seq(|u|, j requires 0 <= j < |u| => RowSum(N, u, j, |u|))
  }

  function AddVectors(a: seq<Double>, b: seq<Double>): (r: seq<Double>)
    requires |a| == |b|
    ensures |r| == |a|
    ensures forall j :: 0 <= j < |a| ==> r[j] == Add(a[j], b[j])
  {
    seq(|a|, j requires 0 <= j < |a| => Add(a[j], b[j]))
  }

  /** Adding N * u to a vector keeps it finite exactly when the vector, the
      input and the projector are all finite. */
  lemma AddProjectedFinite(a: seq<Double>, N: Projector, u: seq<Double>)
    requires |a| == |u|
    ensures AllFinite(AddVectors(a, Project(N, u))) <==> AllFinite(a) && AllFinite(u) && ProjectorFinite(N, |a|)
  {
    var r := AddVectors(a, Project(N, u));
    if AllFinite(r) {
      forall j: nat, i: nat | j < |a| && i < |a|
        ensures a[j].Finite? && N(j, i).Finite?
      {
        assert r[j].Finite?;
        assert RowSum(N, u, j, |u|).Finite?;
      }
      forall i | 0 <= i < |u|
        ensures u[i].Finite?
      {
        assert r[i].Finite?;
        assert RowSum(N, u, i, |u|).Finite?;
      }
    }
    if AllFinite(a) && AllFinite(u) && ProjectorFinite(N, |a|) {
      forall j | 0 <= j < |a|
        ensures r[j].Finite?
      {
        assert RowSum(N, u, j, |u|).Finite?;
      }
    }
  }

  /** A zero input leaves the vector it is added to unchanged, NaN and
      infinite entries included. */
  lemma AddProjectedZero(a: seq<Double>, N: Projector, u: seq<Double>)
    requires |a| == |u| && ProjectorFinite(N, |a|)
    requires forall i :: 0 <= i < |u| ==> u[i] == Finite(0.0)
    ensures AddVectors(a, Project(N, u)) == a
  {
    var p := Project(N, u);
    forall j | 0 <= j < |a|
      ensures AddVectors(a, p)[j] == a[j]
    {
      RowSumOfZero(N, u, j, |u|);
      assert p[j] == Finite(0.0);
      AddZero(a[j]);
    }
  }

  /** The vector a, plus N * u when there is an input u. */
  function AddProjected(a: seq<Double>, N: Projector, u: Option<seq<Double>>): (r: seq<Double>)
    requires u.Some? ==> |u.value| == |a|
    ensures |r| == |a|
    ensures u.None? ==> r == a
    ensures AllFinite(r) <==> AllFinite(a) && (u.Some? ==> AllFinite(u.value) && ProjectorFinite(N, |a|))
  {
    match u
    case None => a
    case Some(v) =>
      AddProjectedFinite(a, N, v);
      AddVectors(a, Project(N, v))
  }

  /** The joint velocity before saturation: the SR-inverse solution plus the
      projected avoidance input, when there is one, plus the projected
      reference input, when there is one. */
  function CandidateVelocity(primary: seq<Double>, N: Projector, avoid: Option<seq<Double>>, reference: Option<seq<real>>): (dq: seq<Double>)
    requires avoid.Some? ==> |avoid.value| == |primary|
    requires reference.Some? ==> |reference.value| == |primary|
    ensures |dq| == |primary|
    ensures AllFinite(dq) <==>
      && AllFinite(primary)
      && (avoid.Some? ==> AllFinite(avoid.value))
      && (avoid.Some? || reference.Some? ==> ProjectorFinite(N, |primary|))
  {
    var lifted := if reference.Some? then Some(Lift(reference.value)) else None;
    AddProjected(AddProjected(primary, N, avoid), N, lifted)
  }
}
