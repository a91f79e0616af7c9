/** The circular statistics of hyscan-stats.c: the wrap of an angle into
    [0, 360), the plain and the weighted circular mean of angles in degrees,
    and the circular standard deviation about a given mean, whose per-value
    difference is folded into [0, 180].

    sin, cos, atan2 and sqrt are foreign: they are parameters of the model. */
module Stats {

  /** G_PI, to the precision of a double. */
  const Pi: real := 3.141592653589793

  function Abs(x: real): real
  {
    if x < 0.0 then -x else x
  }

  /** `hyscan_stats_fit_angle`: one step of 360 up for a negative angle, then
      one step of 360 down for an angle of 360 or more. It moves the angle by
      a whole turn at most, brings every angle of [-360, 720) into [0, 360)
      and leaves the angles of [0, 360) alone. */
  function FitAngle(angle: real): (r: real)
    ensures r == angle || r == angle + 360.0 || r == angle - 360.0
    ensures -360.0 <= angle < 720.0 ==> 0.0 <= r < 360.0
    ensures 0.0 <= angle < 360.0 ==> r == angle
  {
    var a := if angle < 0.0 then angle + 360.0 else angle;
    if a >= 360.0 then a - 360.0 else a
  }

  /** On its range of use, wrapping twice is wrapping once. */
  lemma FitAngleIdempotent(angle: real)
    requires -360.0 <= angle < 720.0
    ensures FitAngle(FitAngle(angle)) == FitAngle(angle)
  {
  }

  /** A single wrap step: an angle below -360 stays negative. */
  lemma FitAngleOneStep()
    ensures FitAngle(-400.0) == -40.0
  {
  }

  /** Degrees to radians, as the loops convert each value. */
  function Radians(degrees: real): real
  {
    degrees / 180.0 * Pi
  }

  /** f of the first n angles, in radians, added from the left. */
  function TrigSum(values: seq<real>, f: real -> real, n: nat): real
    requires n <= |values|
  {
    if n == 0 then 0.0 else TrigSum(values, f, n - 1) + f(Radians(values[n - 1]))
  }

  /** weights[k] * f of the first n angles, added from the left. */
  function WeightedTrigSum(values: seq<real>, weights: seq<real>, f: real -> real, n: nat): real
    requires n <= |values| && n <= |weights|
  {
    if n == 0 then 0.0
    else WeightedTrigSum(values, weights, f, n - 1) + weights[n - 1] * f(Radians(values[n - 1]))
  }

  /** The angle, in degrees and wrapped, of the vector (sumSin, sumCos). */
  function Direction(sumSin: real, sumCos: real, atan2: (real, real) -> real): real
  {
    FitAngle(atan2(sumSin, sumCos) / Pi * 180.0)
  }

  /** What `hyscan_stats_avg_circular` answers: 0 for no values, otherwise
      the direction of the sum of the unit vectors of the values. */
  function AvgCircular(values: seq<real>, sin: real -> real, cos: real -> real,
                       atan2: (real, real) -> real): (r: real)
    ensures |values| == 0 ==> r == 0.0
  {
    if |values| == 0 then 0.0
    else Direction(TrigSum(values, sin, |values|), TrigSum(values, cos, |values|), atan2)
  }

  /** What `hyscan_stats_avg_circular_weighted` answers: 0 for no values,
      otherwise the direction of the weighted sum of the unit vectors. */
  function AvgCircularWeighted(values: seq<real>, weights: seq<real>, sin: real -> real, cos: real -> real,
                               atan2: (real, real) -> real): (r: real)
    requires |values| <= |weights|
    ensures |values| == 0 ==> r == 0.0
  {
    if |values| == 0 then 0.0
    else Direction(WeightedTrigSum(values, weights, sin, |values|),
                   WeightedTrigSum(values, weights, cos, |values|), atan2)
  }

  /** The difference of v from avg folded onto the shorter way round the
      circle: |v - avg|, or 360 - |v - avg| when that exceeds 180. */
  function Fold(v: real, avg: real): (r: real)
    ensures Abs(v - avg) <= 360.0 ==> 0.0 <= r <= 180.0
    ensures Abs(v - avg) <= 180.0 ==> r == Abs(v - avg)
  {
    var d := Abs(v - avg);
    if d > 180.0 then 360.0 - d else d
  }

  /** The fold does not depend on which of the two angles comes first. */
  lemma FoldSymmetric(v: real, avg: real)
    ensures Fold(v, avg) == Fold(avg, v)
  {
  }

  function Square(x: real): real
  {
    x * x
  }

  /** The sum of the squared folded differences of the first n values. */
  function SquareSum(avg: real, values: seq<real>, n: nat): real
    requires n <= |values|
  {
    if n == 0 then 0.0 else SquareSum(avg, values, n - 1) + Square(Fold(values[n - 1], avg))
  }

  /** The mean of the squared folded differences. */
  function MeanSquare(avg: real, values: seq<real>): real
    requires |values| > 0
  {
    SquareSum(avg, values, |values|) / |values| as real
  }

  /** What `hyscan_stats_var_circular` answers: 0 for no values, otherwise
      the square root of the mean square. */
  function VarCircular(avg: real, values: seq<real>, sqrt: real -> real): (r: real)
    ensures |values| == 0 ==> r == 0.0
  {
    if |values| == 0 then 0.0 else sqrt(MeanSquare(avg, values))
  }

  /** `hyscan_stats_avg_circular`: the empty exit, then one loop summing the
      sines and cosines of the values. */
  method AvgCircularLoop(values: seq<real>, sin: real -> real, cos: real -> real,
                         atan2: (real, real) -> real) returns (r: real)
    ensures r == AvgCircular(values, sin, cos, atan2)
  {
    if |values| == 0 {
      return 0.0;
    }
    var sumSin, sumCos := 0.0, 0.0;
    var i := 0;
    while i < |values|
      invariant 0 <= i <= |values|
      invariant sumSin == TrigSum(values, sin, i) && sumCos == TrigSum(values, cos, i)
    {
      var angle := values[i] / 180.0 * Pi;
      sumSin := sumSin + sin(angle);
      sumCos := sumCos + cos(angle);
      i := i + 1;
    }
    r := FitAngle(atan2(sumSin, sumCos) / Pi * 180.0);
  }

  /** `hyscan_stats_avg_circular_weighted`: as the plain mean, with every
      sine and cosine scaled by the weight of its value. */
  method AvgCircularWeightedLoop(values: seq<real>, weights: seq<real>, sin: real -> real, cos: real -> real,
                                 atan2: (real, real) -> real) returns (r: real)
    requires |values| <= |weights|
    ensures r == AvgCircularWeighted(values, weights, sin, cos, atan2)
  {
    if |values| == 0 {
      return 0.0;
    }
    var sumSin, sumCos := 0.0, 0.0;
    var i := 0;
    while i < |values|
      invariant 0 <= i <= |values|
      invariant sumSin == WeightedTrigSum(values, weights, sin, i)
      invariant sumCos == WeightedTrigSum(values, weights, cos, i)
    {
      var angle := values[i] / 180.0 * Pi;
      sumSin := sumSin + weights[i] * sin(angle);
      sumCos := sumCos + weights[i] * cos(angle);
      i := i + 1;
    }
    r := FitAngle(atan2(sumSin, sumCos) / Pi * 180.0);
  }

  /** `hyscan_stats_var_circular`: the empty exit, then one loop adding the
      square of each folded difference. */
  method VarCircularLoop(avg: real, values: seq<real>, sqrt: real -> real) returns (r: real)
    ensures r == VarCircular(avg, values, sqrt)
  {
    if |values| == 0 {
      return 0.0;
    }
    var sum := 0.0;
    var i := 0;
    while i < |values|
      invariant 0 <= i <= |values| && sum == SquareSum(avg, values, i)
    {
      var d := Abs(values[i] - avg);
      if d > 180.0 {
        d := 360.0 - d;
      }
      sum := sum + d * d;
      i := i + 1;
    }
    r := sqrt(sum / |values| as real);
  }

  /** When the arctangent stays within [-pi, pi], as the C library's does,
      the circular mean lies in [0, 360). */
  lemma AvgCircularInRange(values: seq<real>, sin: real -> real, cos: real -> real,
                           atan2: (real, real) -> real)
    requires forall y: real, x: real :: -Pi <= atan2(y, x) <= Pi
    ensures 0.0 <= AvgCircular(values, sin, cos, atan2) < 360.0
  {
    if |values| > 0 {
      var a := atan2(TrigSum(values, sin, |values|), TrigSum(values, cos, |values|));
      assert -Pi <= a <= Pi;
      assert -180.0 <= a / Pi * 180.0 <= 180.0;
    }
  }

  /** All-one weights make the weighted sum the plain one. */
  lemma {:induction false} UnitWeightsSum(values: seq<real>, weights: seq<real>, f: real -> real, n: nat)
    requires n <= |values| && n <= |weights|
    requires forall k :: 0 <= k < n ==> weights[k] == 1.0
    ensures WeightedTrigSum(values, weights, f, n) == TrigSum(values, f, n)
  {
    if n > 0 {
      UnitWeightsSum(values, weights, f, n - 1);
    }
  }

  /** With every weight 1 the weighted circular mean is the plain one. */
  lemma UnitWeightsAverage(values: seq<real>, weights: seq<real>, sin: real -> real, cos: real -> real,
                           atan2: (real, real) -> real)
    requires |values| <= |weights|
    requires forall k :: 0 <= k < |values| ==> weights[k] == 1.0
    ensures AvgCircularWeighted(values, weights, sin, cos, atan2) == AvgCircular(values, sin, cos, atan2)
  {
    UnitWeightsSum(values, weights, sin, |values|);
    UnitWeightsSum(values, weights, cos, |values|);
  }

  /** A sum of squares is never negative. */
  lemma {:induction false} SquareSumNonNegative(avg: real, values: seq<real>, n: nat)
    requires n <= |values|
    ensures SquareSum(avg, values, n) >= 0.0
  {
    if n > 0 {
      SquareSumNonNegative(avg, values, n - 1);
      SquareNonNegative(Fold(values[n - 1], avg));
    }
  }

  /** The mean square is never negative. */
  lemma MeanSquareNonNegative(avg: real, values: seq<real>)
    requires |values| > 0
    ensures MeanSquare(avg, values) >= 0.0
  {
    SquareSumNonNegative(avg, values, |values|);
  }

  /** A square is never negative. */
  lemma SquareNonNegative(x: real)
    ensures Square(x) >= 0.0
  {
    if x < 0.0 {
      assert Square(x) == (-x) * (-x);
    }
  }

  /** The squares of differences that all fold to 0 sum to 0. */
  lemma {:induction false} SquareSumOfZeros(avg: real, values: seq<real>, n: nat)
    requires n <= |values|
    requires forall k :: 0 <= k < n ==> Fold(values[k], avg) == 0.0
    ensures SquareSum(avg, values, n) == 0.0
  {
    if n > 0 {
      SquareSumOfZeros(avg, values, n - 1);
      assert Square(Fold(values[n - 1], avg)) == 0.0 * 0.0;
    }
  }

  /** When every value equals the mean, the mean square is 0. */
  lemma MeanSquareZero(avg: real, values: seq<real>)
    requires |values| > 0
    requires forall k :: 0 <= k < |values| ==> values[k] == avg
    ensures MeanSquare(avg, values) == 0.0
  {
    SquareSumOfZeros(avg, values, |values|);
  }
}
