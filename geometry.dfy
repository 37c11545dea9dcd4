/**
 * The angle at the middle of three points (`calculate_angle`). Only the clamp
 * of the cosine into [-1, 1] is modelled exactly; the square roots and the
 * arc cosine are replaced by stand-ins with the same range, endpoints and
 * order, so that everything downstream relies on the result lying in [0, 180].
 */
module Geometry {

  datatype Point = Point(x: real, y: real)

  /** A floating-point value that may be NaN (numpy's 0/0). */
  datatype Float = Num(v: real) | NaN

  /** `min(1.0, max(-1.0, cosine))`; Python's `max` and `min` keep their first argument unless a later one compares greater (smaller), so NaN becomes -1. */
  function ClampCosine(cosine: Float): (r: real)
    ensures -1.0 <= r <= 1.0
    ensures cosine.Num? && -1.0 <= cosine.v <= 1.0 ==> r == cosine.v
    ensures cosine.Num? && cosine.v > 1.0 ==> r == 1.0
    ensures cosine.Num? && cosine.v < -1.0 ==> r == -1.0
    ensures cosine.NaN? ==> r == -1.0
  {
    var lower := if cosine.Num? && cosine.v > -1.0 then cosine.v else -1.0;
    if 1.0 > lower then lower else 1.0
  }

  /** Stand-in for `np.degrees(np.arccos(c))`: decreasing, 0 at 1, 90 at 0, 180 at -1. */
  function ArccosDegrees(c: real): (r: real)
    requires -1.0 <= c <= 1.0
    ensures 0.0 <= r <= 180.0
    ensures r == 0.0 <==> c == 1.0
    ensures r == 90.0 <==> c == 0.0
    ensures r == 180.0 <==> c == -1.0
  {
    90.0 - 90.0 * c
  }

  lemma ArccosDegreesDecreasing(c: real, d: real)
    requires -1.0 <= c < d <= 1.0
    ensures ArccosDegrees(c) > ArccosDegrees(d)
  {
  }

  /**
   * The quotient `dot / (|ba| * |bc|)`. A zero-length leg makes it 0/0, that
   * is NaN. Otherwise the stand-in is the signed square of the cosine, which
   * agrees with the cosine at -1, 0 and 1 and preserves its sign and order.
   */
  function RawCosine(a: Point, b: Point, c: Point): Float
  {
    var bax, bay := a.x - b.x, a.y - b.y;
    var bcx, bcy := c.x - b.x, c.y - b.y;
    var dot := bax * bcx + bay * bcy;
    var n1 := bax * bax + bay * bay;
    var n2 := bcx * bcx + bcy * bcy;
    if n1 == 0.0 || n2 == 0.0 then NaN
    else Num((if dot < 0.0 then -1.0 else 1.0) * dot * dot / (n1 * n2))
  }

  /** `calculate_angle(a, b, c)`: the angle at `b`, in degrees. */
  function CalculateAngle(a: Point, b: Point, c: Point): (angle: real)
    ensures 0.0 <= angle <= 180.0
  {
    ArccosDegrees(ClampCosine(RawCosine(a, b, c)))
  }

  /** A leg of zero length gives NaN, which the clamp turns into -1: the angle is 180, not absent. */
  lemma DegenerateLegIsStraight(a: Point, b: Point, c: Point)
    requires a == b || c == b
    ensures CalculateAngle(a, b, c) == 180.0
  {
  }
}
