/**
 * Small facts about exact reals shared by the numeric modules.
 */
module RealArith {

  function AbsReal(x: real): (r: real)
    ensures 0.0 <= r && (r == x || r == -x)
  {
    if x < 0.0 then -x else x
  }

  function MaxReal(a: real, b: real): real { if a < b then b else a }

  function MinReal(a: real, b: real): real { if b < a then b else a }

  /** Every entry of v multiplied by k: a joint's optional weight times a
      gain, or a velocity limit times dt. */
  function Scales(v: seq<real>, k: real): (s: seq<real>)
    ensures |s| == |v| && forall j :: 0 <= j < |v| ==> s[j] == v[j] * k
  {
    seq(|v|, j requires 0 <= j < |v| => v[j] * k)
  }

  lemma ProductPositive(x: real, y: real)
    requires 0.0 < x && 0.0 < y
    ensures 0.0 < x * y
  {
  }

  lemma ProductNegative(x: real, y: real)
    requires 0.0 < x && y < 0.0
    ensures x * y < 0.0
  {
  }

  lemma DifferenceOfSquares(x: real, y: real, p: real, s: real)
    requires p == y - x && s == y + x
    ensures p * s == y * y - x * x
  {
  }
}
