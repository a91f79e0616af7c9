/** The range reductions of hyscan-math-functions.c: the arithmetic mean,
    the minimum and the maximum of the samples [min, max) of a buffer of
    floats or of complex floats. Complex buffers are reduced componentwise,
    and float results carry 0 in their imaginary part. Every reduction
    shares one range check and answers (0, 0) when it fails. */
module MathFunctions {
  import opened Common

  /** The two kinds of HyScanBuffer contents the reductions read. */
  datatype Buffer = FloatData(values: seq<real>) | ComplexData(samples: seq<Complex>)

  /** n_values: the number of samples in the buffer. */
  function Count(b: Buffer): nat
  {
    if b.FloatData? then |b.values| else |b.samples|
  }

  /** The shared range check: it rejects min < 0, min > n, max <= min and
      max > n, so it accepts exactly the non-empty ranges inside the buffer. */
  predicate RangeValid(n: nat, min: int, max: int)
  {
    !(min < 0 || min > n || max <= min || max > n)
  }

  /** The real parts of a complex buffer. */
  function Re(c: seq<Complex>): (r: seq<real>)
    ensures |r| == |c| && forall k :: 0 <= k < |c| ==> r[k] == c[k].re
  {
    seq(|c|, k requires 0 <= k < |c| => c[k].re)
  }

  /** The imaginary parts of a complex buffer. */
  function Im(c: seq<Complex>): (r: seq<real>)
    ensures |r| == |c| && forall k :: 0 <= k < |c| ==> r[k] == c[k].im
  {
    seq(|c|, k requires 0 <= k < |c| => c[k].im)
  }

  /** s[lo] + ... + s[hi - 1], added from the left as the accumulator does. */
  function Sum(s: seq<real>, lo: nat, hi: nat): real
    requires lo <= hi <= |s|
    decreases hi - lo
  {
    if hi == lo then 0.0 else Sum(s, lo, hi - 1) + s[hi - 1]
  }

  /** The running minimum: it starts at s[lo] and is replaced by a later
      sample only when that sample is strictly smaller. */
  function Least(s: seq<real>, lo: nat, hi: nat): real
    requires lo < hi <= |s|
    decreases hi - lo
  {
    if hi == lo + 1 then s[lo]
    else if s[hi - 1] < Least(s, lo, hi - 1) then s[hi - 1]
    else Least(s, lo, hi - 1)
  }

  /** The running maximum: it starts at s[lo] and is replaced by a later
      sample only when that sample is strictly larger. */
  function Greatest(s: seq<real>, lo: nat, hi: nat): real
    requires lo < hi <= |s|
    decreases hi - lo
  {
    if hi == lo + 1 then s[lo]
    else if s[hi - 1] > Greatest(s, lo, hi - 1) then s[hi - 1]
    else Greatest(s, lo, hi - 1)
  }

  /** The arithmetic mean of s[lo..hi). */
  function Mean(s: seq<real>, lo: nat, hi: nat): real
    requires lo < hi <= |s|
  {
    Sum(s, lo, hi) / (hi - lo) as real
  }

  /** What `hyscan_math_function_avr` answers. */
  function Average(b: Buffer, min: int, max: int): (r: Complex)
    ensures !RangeValid(Count(b), min, max) ==> r == Zero
    ensures b.FloatData? ==> r.im == 0.0
  {
    if !RangeValid(Count(b), min, max) then Zero
    else match b
      case FloatData(v) => Complex(Mean(v, min, max), 0.0)
      case ComplexData(c) => Complex(Mean(Re(c), min, max), Mean(Im(c), min, max))
  }

  /** What `hyscan_math_function_min` answers. */
  function Minimum(b: Buffer, min: int, max: int): (r: Complex)
    ensures !RangeValid(Count(b), min, max) ==> r == Zero
    ensures b.FloatData? ==> r.im == 0.0
  {
    if !RangeValid(Count(b), min, max) then Zero
    else match b
      case FloatData(v) => Complex(Least(v, min, max), 0.0)
      case ComplexData(c) => Complex(Least(Re(c), min, max), Least(Im(c), min, max))
  }

  /** What `hyscan_math_function_max` answers. */
  function Maximum(b: Buffer, min: int, max: int): (r: Complex)
    ensures !RangeValid(Count(b), min, max) ==> r == Zero
    ensures b.FloatData? ==> r.im == 0.0
  {
    if !RangeValid(Count(b), min, max) then Zero
    else match b
      case FloatData(v) => Complex(Greatest(v, min, max), 0.0)
      case ComplexData(c) => Complex(Greatest(Re(c), min, max), Greatest(Im(c), min, max))
  }

  /** `hyscan_math_function_avr`: the empty-buffer exit, the range check, and
      one accumulator per component over [min, max). */
  method Avr(b: Buffer, min: int, max: int) returns (r: Complex)
    ensures r == Average(b, min, max)
  {
    r := Zero;
    var sumRe, sumIm := 0.0, 0.0;
    if Count(b) == 0 {
      return;
    }
    if !RangeValid(Count(b), min, max) {
      return;
    }
    match b
    case FloatData(v) =>
      var i := min;
      while i < max
        invariant min <= i <= max && sumRe == Sum(v, min, i)
      {
        sumRe := sumRe + v[i];
        i := i + 1;
      }
      r := Complex(sumRe / (max - min) as real, 0.0);
    case ComplexData(c) =>
      var i := min;
      while i < max
        invariant min <= i <= max
        invariant sumRe == Sum(Re(c), min, i) && sumIm == Sum(Im(c), min, i)
      {
        sumRe := sumRe + c[i].re;
        sumIm := sumIm + c[i].im;
        i := i + 1;
      }
      r := Complex(sumRe / (max - min) as real, sumIm / (max - min) as real);
  }

  /** `hyscan_math_function_min`: start from the sample at min and keep the
      smaller value, per component, over the rest of the range. */
  method Min(b: Buffer, min: int, max: int) returns (r: Complex)
    ensures r == Minimum(b, min, max)
  {
    r := Zero;
    if Count(b) == 0 {
      return;
    }
    if !RangeValid(Count(b), min, max) {
      return;
    }
    match b
    case FloatData(v) =>
      var minRe := v[min];
      var i := min + 1;
      while i < max
        invariant min < i <= max && minRe == Least(v, min, i)
      {
        if v[i] < minRe {
          minRe := v[i];
        }
        i := i + 1;
      }
      r := Complex(minRe, 0.0);
    case ComplexData(c) =>
      var minRe, minIm := c[min].re, c[min].im;
      var i := min + 1;
      while i < max
        invariant min < i <= max
        invariant minRe == Least(Re(c), min, i) && minIm == Least(Im(c), min, i)
      {
        if c[i].re < minRe {
          minRe := c[i].re;
        }
        if c[i].im < minIm {
          minIm := c[i].im;
        }
        i := i + 1;
      }
      r := Complex(minRe, minIm);
  }

  /** `hyscan_math_function_max`: start from the sample at min and keep the
      larger value, per component, over the rest of the range. */
  method Max(b: Buffer, min: int, max: int) returns (r: Complex)
    ensures r == Maximum(b, min, max)
  {
    r := Zero;
    if Count(b) == 0 {
      return;
    }
    if !RangeValid(Count(b), min, max) {
      return;
    }
    match b
    case FloatData(v) =>
      var maxRe := v[min];
      var i := min + 1;
      while i < max
        invariant min < i <= max && maxRe == Greatest(v, min, i)
      {
        if v[i] > maxRe {
          maxRe := v[i];
        }
        i := i + 1;
      }
      r := Complex(maxRe, 0.0);
    case ComplexData(c) =>
      var maxRe, maxIm := c[min].re, c[min].im;
      var i := min + 1;
      while i < max
        invariant min < i <= max
        invariant maxRe == Greatest(Re(c), min, i) && maxIm == Greatest(Im(c), min, i)
      {
        if c[i].re > maxRe {
          maxRe := c[i].re;
        }
        if c[i].im > maxIm {
          maxIm := c[i].im;
        }
        i := i + 1;
      }
      r := Complex(maxRe, maxIm);
  }

  /** The range check accepts exactly 0 <= min < max <= n, so an empty buffer
      never passes it. */
  lemma RangeValidMeans(n: nat, min: int, max: int)
    ensures RangeValid(n, min, max) <==> 0 <= min < max <= n
    ensures n == 0 ==> !RangeValid(n, min, max)
  {
  }

  /** A sum of samples that all lie between lower and upper lies between
      (hi - lo) * lower and (hi - lo) * upper. */
  lemma {:induction false} SumBetween(s: seq<real>, lo: nat, hi: nat, lower: real, upper: real)
    requires lo <= hi <= |s|
    requires forall k :: lo <= k < hi ==> lower <= s[k] <= upper
    ensures (hi - lo) as real * lower <= Sum(s, lo, hi) <= (hi - lo) as real * upper
    decreases hi - lo
  {
    if hi > lo {
      SumBetween(s, lo, hi - 1, lower, upper);
    }
  }

  /** The sum of a constant range is its length times the constant. */
  lemma {:induction false} SumOfConstant(s: seq<real>, lo: nat, hi: nat, x: real)
    requires lo <= hi <= |s|
    requires forall k :: lo <= k < hi ==> s[k] == x
    ensures Sum(s, lo, hi) == (hi - lo) as real * x
    decreases hi - lo
  {
    if hi > lo {
      SumOfConstant(s, lo, hi - 1, x);
    }
  }

  /** The running minimum is one of the samples of the range, and no sample
      of the range is smaller. */
  lemma {:induction false} LeastIsMinimum(s: seq<real>, lo: nat, hi: nat)
    requires lo < hi <= |s|
    ensures exists k :: lo <= k < hi && Least(s, lo, hi) == s[k]
    ensures forall k :: lo <= k < hi ==> Least(s, lo, hi) <= s[k]
    decreases hi - lo
  {
    if hi == lo + 1 {
      assert Least(s, lo, hi) == s[lo];
    } else {
      LeastIsMinimum(s, lo, hi - 1);
      if s[hi - 1] < Least(s, lo, hi - 1) {
        assert Least(s, lo, hi) == s[hi - 1];
      } else {
        var k :| lo <= k < hi - 1 && Least(s, lo, hi - 1) == s[k];
        assert Least(s, lo, hi) == s[k];
      }
    }
  }

  /** The running maximum is one of the samples of the range, and no sample
      of the range exceeds it. */
  lemma {:induction false} GreatestIsMaximum(s: seq<real>, lo: nat, hi: nat)
    requires lo < hi <= |s|
    ensures exists k :: lo <= k < hi && Greatest(s, lo, hi) == s[k]
    ensures forall k :: lo <= k < hi ==> s[k] <= Greatest(s, lo, hi)
    decreases hi - lo
  {
    if hi == lo + 1 {
      assert Greatest(s, lo, hi) == s[lo];
    } else {
      GreatestIsMaximum(s, lo, hi - 1);
      if s[hi - 1] > Greatest(s, lo, hi - 1) {
        assert Greatest(s, lo, hi) == s[hi - 1];
      } else {
        var k :| lo <= k < hi - 1 && Greatest(s, lo, hi - 1) == s[k];
        assert Greatest(s, lo, hi) == s[k];
      }
    }
  }

  /** Dividing n * lower <= x <= n * upper by a positive n. */
  lemma QuotientBetween(x: real, n: real, lower: real, upper: real)
    requires n > 0.0 && n * lower <= x <= n * upper
    ensures lower <= x / n <= upper
  {
    assert x / n - lower == (x - n * lower) / n;
    assert upper - x / n == (n * upper - x) / n;
  }

  /** The mean of a range lies between its least and its greatest sample. */
  lemma MeanBetween(s: seq<real>, lo: nat, hi: nat)
    requires lo < hi <= |s|
    ensures Least(s, lo, hi) <= Mean(s, lo, hi) <= Greatest(s, lo, hi)
  {
    var lower, upper := Least(s, lo, hi), Greatest(s, lo, hi);
    LeastIsMinimum(s, lo, hi);
    GreatestIsMaximum(s, lo, hi);
    SumBetween(s, lo, hi, lower, upper);
    QuotientBetween(Sum(s, lo, hi), (hi - lo) as real, lower, upper);
  }

  /** Over a range where every float sample equals x, the average is x. */
  lemma AverageOfConstant(v: seq<real>, min: int, max: int, x: real)
    requires 0 <= min < max <= |v|
    requires forall k :: min <= k < max ==> v[k] == x
    ensures Average(FloatData(v), min, max) == Complex(x, 0.0)
  {
    SumOfConstant(v, min, max, x);
  }

  /** min <= avr <= max, component by component, on every buffer and range;
      on a rejected range all three are (0, 0). */
  lemma AverageBetween(b: Buffer, min: int, max: int)
    ensures Minimum(b, min, max).re <= Average(b, min, max).re <= Maximum(b, min, max).re
    ensures Minimum(b, min, max).im <= Average(b, min, max).im <= Maximum(b, min, max).im
  {
    if RangeValid(Count(b), min, max) {
      match b
      case FloatData(v) =>
        MeanBetween(v, min, max);
      case ComplexData(c) =>
        MeanBetween(Re(c), min, max);
        MeanBetween(Im(c), min, max);
    }
  }

  /** The complex minimum is taken per component: its real part is the least
      real part of the range, its imaginary part the least imaginary part,
      and the two may come from different samples. */
  lemma ComplexMinimumComponentwise(c: seq<Complex>, min: int, max: int)
    requires 0 <= min < max <= |c|
    ensures exists k :: min <= k < max && Minimum(ComplexData(c), min, max).re == c[k].re
    ensures exists k :: min <= k < max && Minimum(ComplexData(c), min, max).im == c[k].im
    ensures forall k :: min <= k < max ==>
      Minimum(ComplexData(c), min, max).re <= c[k].re && Minimum(ComplexData(c), min, max).im <= c[k].im
  {
    var r := Minimum(ComplexData(c), min, max);
    LeastIsMinimum(Re(c), min, max);
    LeastIsMinimum(Im(c), min, max);
    var kr :| min <= kr < max && Least(Re(c), min, max) == Re(c)[kr];
    var ki :| min <= ki < max && Least(Im(c), min, max) == Im(c)[ki];
    assert r.re == c[kr].re && r.im == c[ki].im;
  }

  /** The complex maximum is taken per component in the same way. */
  lemma ComplexMaximumComponentwise(c: seq<Complex>, min: int, max: int)
    requires 0 <= min < max <= |c|
    ensures exists k :: min <= k < max && Maximum(ComplexData(c), min, max).re == c[k].re
    ensures exists k :: min <= k < max && Maximum(ComplexData(c), min, max).im == c[k].im
    ensures forall k :: min <= k < max ==>
      c[k].re <= Maximum(ComplexData(c), min, max).re && c[k].im <= Maximum(ComplexData(c), min, max).im
  {
    var r := Maximum(ComplexData(c), min, max);
    GreatestIsMaximum(Re(c), min, max);
    GreatestIsMaximum(Im(c), min, max);
    var kr :| min <= kr < max && Greatest(Re(c), min, max) == Re(c)[kr];
    var ki :| min <= ki < max && Greatest(Im(c), min, max) == Im(c)[ki];
    assert r.re == c[kr].re && r.im == c[ki].im;
  }

  /** The componentwise minimum of (0, 1) and (1, 0) is (0, 0), which is
      neither sample. */
  lemma MinimumNeedNotBeASample()
    ensures Minimum(ComplexData([Complex(0.0, 1.0), Complex(1.0, 0.0)]), 0, 2) == Zero
  {
    var c := [Complex(0.0, 1.0), Complex(1.0, 0.0)];
    assert Re(c) == [0.0, 1.0] && Im(c) == [1.0, 0.0];
  }
}
