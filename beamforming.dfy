/** Direction-of-arrival estimation of hyscan-beamforming.c: the array
    configuration (validation, the two sub-arrays, their phase centres, the
    beam count and the beam angles), the registration of one convolution
    kernel per channel and beam, and the coarse stage of `get_doa` (beam
    sums, the strongest beam per range sample, the two sub-array sums the
    phase refinement starts from). The trigonometry of the kernels and of
    the refinement is foreign and left out. */
module Beamforming {
  import opened Common
  import Fft

  const NearZero: real := 0.00001
  const MaxNChannels: nat := 128
  const MaxNBeams: nat := 1024
  /** The transform size used when no signal images are given. */
  const ToneFftSize: nat := 256

  /** `configure`'s parameter check: a channel count in [1, 128], the four
      physical quantities not below 1e-5, and both arrays present. */
  predicate ParamsValid(nChannels: nat, dataRate: real, frequency: real, fieldOfView: real, soundVelocity: real,
                        offsets: Option<seq<real>>, groups: Option<seq<int>>)
  {
    && 1 <= nChannels <= MaxNChannels
    && soundVelocity >= NearZero && dataRate >= NearZero && frequency >= NearZero && fieldOfView >= NearZero
    && offsets.Some? && groups.Some?
  }

  /** The ±1 m check on the first count antenna offsets. */
  predicate OffsetsInRange(offsets: seq<real>, count: nat)
    requires count <= |offsets|
  {
    forall c :: 0 <= c < count ==> -1.0 <= offsets[c] <= 1.0
  }

  /** The two overlapping sub-arrays used for the phase refinement. */
  datatype SubArray = First | Second

  /** Group 1 or 3 belongs to the first sub-array, group 2 or 3 to the
      second; any other group to neither. `configure` and `get_doa` share
      this rule. */
  predicate InSubArray(group: int, s: SubArray)
  {
    match s
    case First => group == 1 || group == 3
    case Second => group == 2 || group == 3
  }

  /** Sum and number of the offsets of the first k channels in sub-array s. */
  function GroupTotal(offsets: seq<real>, groups: seq<int>, s: SubArray, k: nat): (real, nat)
    requires k <= |offsets| && k <= |groups|
  {
    if k == 0 then (0.0, 0)
    else
      var (sum, count) := GroupTotal(offsets, groups, s, k - 1);
      if InSubArray(groups[k - 1], s) then (sum + offsets[k - 1], count + 1) else (sum, count)
  }

  /** count * x as a repeated sum. */
  function Scaled(count: nat, x: real): real
  {
    if count == 0 then 0.0 else Scaled(count - 1, x) + x
  }

  lemma {:induction false} ScaledIsProduct(count: nat, x: real)
    ensures Scaled(count, x) == count as real * x
  {
    if count > 0 {
      ScaledIsProduct(count - 1, x);
      assert (count - 1) as real * x + x == count as real * x;
    }
  }

  /** Members no smaller than lo: count * lo <= sum. */
  lemma {:induction false} GroupTotalAbove(offsets: seq<real>, groups: seq<int>, s: SubArray, k: nat, lo: real)
    requires k <= |offsets| && k <= |groups|
    requires forall c :: 0 <= c < k && InSubArray(groups[c], s) ==> lo <= offsets[c]
    ensures Scaled(GroupTotal(offsets, groups, s, k).1, lo) <= GroupTotal(offsets, groups, s, k).0
  {
    if k > 0 {
      GroupTotalAbove(offsets, groups, s, k - 1, lo);
    }
  }

  /** Members no greater than hi: sum <= count * hi. */
  lemma {:induction false} GroupTotalBelow(offsets: seq<real>, groups: seq<int>, s: SubArray, k: nat, hi: real)
    requires k <= |offsets| && k <= |groups|
    requires forall c :: 0 <= c < k && InSubArray(groups[c], s) ==> offsets[c] <= hi
    ensures GroupTotal(offsets, groups, s, k).0 <= Scaled(GroupTotal(offsets, groups, s, k).1, hi)
  {
    if k > 0 {
      GroupTotalBelow(offsets, groups, s, k - 1, hi);
    }
  }

  /** A phase centre lies between the smallest and the largest offset of
      its sub-array's members. */
  lemma PhaseCentreWithinMembers(offsets: seq<real>, groups: seq<int>, s: SubArray, k: nat, lo: real, hi: real)
    requires k <= |offsets| && k <= |groups|
    requires forall c :: 0 <= c < k && InSubArray(groups[c], s) ==> lo <= offsets[c] <= hi
    requires GroupTotal(offsets, groups, s, k).1 > 0
    ensures lo <= PhaseCentreOf(offsets, groups, s, k) <= hi
  {
    var t := GroupTotal(offsets, groups, s, k);
    GroupTotalAbove(offsets, groups, s, k, lo);
    GroupTotalBelow(offsets, groups, s, k, hi);
    MeanOfBoundedTotal(t.0, t.1, lo, hi);
  }

  /** A sum between count * lo and count * hi has its mean in [lo, hi]. */
  lemma MeanOfBoundedTotal(sum: real, count: nat, lo: real, hi: real)
    requires count > 0 && Scaled(count, lo) <= sum <= Scaled(count, hi)
    ensures lo <= sum / count as real <= hi
  {
    ScaledIsProduct(count, lo);
    ScaledIsProduct(count, hi);
    var n := count as real;
    var m := sum / n;
    assert m * n == sum;
    if m < lo {
      RealMulLess(m, lo, n);
    }
    if m > hi {
      RealMulLess(hi, m, n);
    }
  }

  lemma RealMulLess(a: real, b: real, n: real)
    requires a < b && n > 0.0
    ensures a * n < b * n
  {
  }

  /** The accumulation loop of `configure` for one sub-array: the sum and the
      count of its members' offsets. */
  method PhaseCentre(offsets: seq<real>, groups: seq<int>, s: SubArray, nChannels: nat) returns (sum: real, count: nat)
    requires nChannels <= |offsets| && nChannels <= |groups|
    ensures (sum, count) == GroupTotal(offsets, groups, s, nChannels)
  {
    sum, count := 0.0, 0;
    var c := 0;
    while c < nChannels
      invariant 0 <= c <= nChannels
      invariant (sum, count) == GroupTotal(offsets, groups, s, c)
    {
      if InSubArray(groups[c], s) {
        sum := sum + offsets[c];
        count := count + 1;
      }
      c := c + 1;
    }
  }

  /** glib's CLAMP (x, low, high). */
  function Clamp(x: int, low: int, high: int): int
  {
    if x > high then high else if x < low then low else x
  }

  /** The beam count lies in [n_channels, 1024] and is the raw count when
      that already does. */
  lemma ClampedBeamCount(raw: nat, nChannels: nat)
    requires 1 <= nChannels <= MaxNChannels
    ensures nChannels <= Clamp(raw, nChannels, MaxNBeams) <= MaxNBeams
    ensures nChannels <= raw <= MaxNBeams ==> Clamp(raw, nChannels, MaxNBeams) == raw
    ensures raw > MaxNBeams ==> Clamp(raw, nChannels, MaxNBeams) == MaxNBeams
    ensures raw < nChannels ==> Clamp(raw, nChannels, MaxNBeams) == nChannels
  {
  }

  /** The angle of beam b of nBeams across a field of view. With a single
      beam the source divides 0 by 0; the model takes that quotient as 0. */
  function BeamAngle(fieldOfView: real, nBeams: nat, b: nat): real
  {
    if nBeams <= 1 then -fieldOfView + fieldOfView / 2.0
    else -fieldOfView * (1.0 - b as real / (nBeams - 1) as real) + fieldOfView / 2.0
  }

  /** The angle grid runs from -fov/2 at beam 0 to +fov/2 at the last beam in
      steps of fov / (n_beams - 1), so it is strictly increasing. */
  lemma AngleGrid(fieldOfView: real, nBeams: nat)
    requires nBeams >= 2
    ensures BeamAngle(fieldOfView, nBeams, 0) == -fieldOfView / 2.0
    ensures BeamAngle(fieldOfView, nBeams, nBeams - 1) == fieldOfView / 2.0
    ensures forall b: nat :: b + 1 < nBeams ==>
      BeamAngle(fieldOfView, nBeams, b + 1) - BeamAngle(fieldOfView, nBeams, b) == fieldOfView / (nBeams - 1) as real
    ensures fieldOfView > 0.0 ==> forall b: nat, b': nat :: b < b' < nBeams ==>
      BeamAngle(fieldOfView, nBeams, b) < BeamAngle(fieldOfView, nBeams, b')
  {
    var d := (nBeams - 1) as real;
    forall b: nat | b + 1 < nBeams
      ensures BeamAngle(fieldOfView, nBeams, b + 1) - BeamAngle(fieldOfView, nBeams, b) == fieldOfView / d
    {
      assert (b + 1) as real / d == b as real / d + 1.0 / d;
    }
    if fieldOfView > 0.0 {
      forall b: nat, b': nat | b < b' < nBeams
        ensures BeamAngle(fieldOfView, nBeams, b) < BeamAngle(fieldOfView, nBeams, b')
      {
        assert b as real / d < b' as real / d;
      }
    }
  }

  /** The angle loop of `configure`. */
  method FillAngles(fieldOfView: real, nBeams: nat) returns (angles: seq<real>)
    ensures |angles| == nBeams
    ensures forall b :: 0 <= b < nBeams ==> angles[b] == BeamAngle(fieldOfView, nBeams, b)
  {
    angles := [];
    var b := 0;
    while b < nBeams
      invariant 0 <= b <= nBeams && |angles| == b
      invariant forall b' :: 0 <= b' < b ==> angles[b'] == BeamAngle(fieldOfView, nBeams, b')
    {
      angles := angles + [BeamAngle(fieldOfView, nBeams, b)];
      b := b + 1;
    }
  }

  /** conv_i: where the kernel of channel c and beam b is kept. */
  function KernelIndex(c: nat, b: nat, nBeams: nat): nat
  {
    c * nBeams + b
  }

  /** The kernel index is a bijection from channel-beam pairs onto
      [0, n_channels * n_beams): channel and beam are recovered by division,
      and every index in the range is hit. */
  lemma KernelIndexBijective(nChannels: nat, nBeams: nat)
    ensures forall c: nat, b: nat :: c < nChannels && b < nBeams ==>
      KernelIndex(c, b, nBeams) < nChannels * nBeams
      && KernelIndex(c, b, nBeams) / nBeams == c && KernelIndex(c, b, nBeams) % nBeams == b
    ensures forall i: nat :: i < nChannels * nBeams ==>
      i / nBeams < nChannels && KernelIndex(i / nBeams, i % nBeams, nBeams) == i
  {
    forall c: nat, b: nat | c < nChannels && b < nBeams
      ensures KernelIndex(c, b, nBeams) < nChannels * nBeams
      ensures KernelIndex(c, b, nBeams) / nBeams == c && KernelIndex(c, b, nBeams) % nBeams == b
    {
      KernelIndexDiv(c, b, nBeams);
      MulLe(c + 1, nChannels, nBeams);
    }
    forall i: nat | i < nChannels * nBeams
      ensures i / nBeams < nChannels && KernelIndex(i / nBeams, i % nBeams, nBeams) == i
    {
      DivBelow(i, nChannels, nBeams);
    }
  }

  lemma {:induction false} KernelIndexDiv(c: nat, b: nat, nBeams: nat)
    requires b < nBeams
    ensures (c * nBeams + b) / nBeams == c && (c * nBeams + b) % nBeams == b
  {
    var i := c * nBeams + b;
    var q := i / nBeams;
    assert i == q * nBeams + i % nBeams && 0 <= i % nBeams < nBeams;
    if q > c {
      MulLe(c + 1, q, nBeams);
    } else if q < c {
      MulLe(q + 1, c, nBeams);
    }
  }

  /** The convolution of one buffer with a stored kernel (foreign). */
  type ConvolveFn = (seq<Complex>, seq<Complex>) -> seq<Complex>

  /** The convolution object as an indexed store: `convolve` at an index
      without a kernel fails and leaves the data as they are. */
  function StoreConvolve(kernels: map<nat, seq<Complex>>, index: nat, x: seq<Complex>, conv: ConvolveFn)
    : (r: (bool, seq<Complex>))
    ensures |r.1| == |x|
    ensures r.0 <==> index in kernels
    ensures !r.0 ==> r.1 == x
  {
    if index in kernels then (true, Resize(conv(kernels[index], x), |x|)) else (false, x)
  }

  /** Every sample negated. */
  function Negated(x: seq<Complex>): (r: seq<Complex>)
    ensures |r| == |x|
  {
    seq(|x|, i requires 0 <= i < |x| => Neg(x[i]))
  }

  /** Pointwise sum of two equally long buffers. */
  function AddSeq(x: seq<Complex>, y: seq<Complex>): (r: seq<Complex>)
    requires |x| == |y|
    ensures |r| == |x|
  {
    seq(|x|, i requires 0 <= i < |x| => Add(x[i], y[i]))
  }

  /** What `get_doa` needs of the configuration: the kernels, the beam count,
      the groups and the foreign convolution. */
  datatype Rig = Rig(kernels: map<nat, seq<Complex>>, nBeams: nat, groups: seq<int>, conv: ConvolveFn)

  /** Every one of the first nChannels rows holds at least n samples. */
  predicate Fits(data: seq<seq<Complex>>, nChannels: nat, n: nat)
  {
    nChannels <= |data| && forall c :: 0 <= c < nChannels ==> n <= |data[c]|
  }

  /** ach[c][b]: channel c's first n samples, negated for channel 1, after
      the convolution with the kernel of beam b. */
  function ChannelBeam(rig: Rig, data: seq<seq<Complex>>, n: nat, c: nat, b: nat): (r: seq<Complex>)
    requires c < |data| && n <= |data[c]|
    ensures |r| == n
  {
    var x := data[c][..n];
    StoreConvolve(rig.kernels, KernelIndex(c, b, rig.nBeams), if c == 1 then Negated(x) else x, rig.conv).1
  }

  /** Beam b: the sum of ach[c][b] over the first k channels. */
  function BeamSum(rig: Rig, data: seq<seq<Complex>>, n: nat, b: nat, k: nat): (r: seq<Complex>)
    requires Fits(data, k, n)
    ensures |r| == n
  {
    if k == 0 then Zeros(n) else AddSeq(BeamSum(rig, data, n, b, k - 1), ChannelBeam(rig, data, n, k - 1, b))
  }

  /** The sub-array sum at sample p of beam b over the first k channels; the
      second sub-array adds the conjugates. */
  function SubArraySum(rig: Rig, data: seq<seq<Complex>>, n: nat, s: SubArray, b: nat, p: nat, k: nat): Complex
    requires Fits(data, k, n) && k <= |rig.groups| && p < n
  {
    if k == 0 then Zero
    else
      var x := ChannelBeam(rig, data, n, k - 1, b)[p];
      var before := SubArraySum(rig, data, n, s, b, p, k - 1);
      if !InSubArray(rig.groups[k - 1], s) then before
      else Add(before, if s == First then x else Conj(x))
  }

  /** k is the lowest index of a greatest amplitude. */
  predicate IsFirstMax(amps: seq<real>, k: nat)
  {
    && k < |amps|
    && (forall j :: 0 <= j < |amps| ==> amps[j] <= amps[k])
    && (forall j :: 0 <= j < k ==> amps[j] < amps[k])
  }

  /** The squared magnitudes of the first nBeams beams at sample p. */
  function Amplitudes(beams: seq<seq<Complex>>, p: nat): (r: seq<real>)
    requires forall b :: 0 <= b < |beams| ==> p < |beams[b]|
    ensures |r| == |beams|
  {
    seq(|beams|, b requires 0 <= b < |beams| => Norm2(beams[b][p]))
  }

  /** The coarse scan of one range sample: beam 0 first, then a later beam
      only when strictly stronger. */
  method StrongestBeam(beams: seq<seq<Complex>>, p: nat) returns (best: nat, amplitude: real)
    requires |beams| >= 1
    requires forall b :: 0 <= b < |beams| ==> p < |beams[b]|
    ensures best == FirstMax(Amplitudes(beams, p))
    ensures amplitude == Norm2(beams[best][p])
  {
    ghost var amps := Amplitudes(beams, p);
    best := 0;
    amplitude := Norm2(beams[0][p]);
    var b := 1;
    while b < |beams|
      invariant 1 <= b <= |beams|
      invariant best == FirstMax(amps[..b])
      invariant amplitude == amps[best]
    {
      assert amps[..b + 1][..b] == amps[..b];
      var a := Norm2(beams[b][p]);
      if a > amplitude {
        best := b;
        amplitude := a;
      }
      b := b + 1;
    }
    assert amps[..|beams|] == amps;
  }

  /** The beam the coarse scan settles on: the scan's own recursion, a later
      beam replacing the current one only when strictly stronger. */
  function FirstMax(amps: seq<real>): (k: nat)
    requires |amps| >= 1
    ensures k < |amps|
  {
    if |amps| == 1 then 0
    else
      var k := FirstMax(amps[..|amps| - 1]);
      if amps[|amps| - 1] > amps[k] then |amps| - 1 else k
  }

  /** The scan picks the lowest index of a greatest amplitude. */
  lemma {:induction false} FirstMaxIsFirst(amps: seq<real>)
    requires |amps| >= 1
    ensures IsFirstMax(amps, FirstMax(amps))
  {
    if |amps| > 1 {
      var front := amps[..|amps| - 1];
      FirstMaxIsFirst(front);
      var k := FirstMax(front);
      assert forall j :: 0 <= j < |front| ==> amps[j] == front[j];
    }
  }

  /** A refined angle: beams_a[b] - asin (atan2 (ach12) * beams_k[b]); the
      trigonometry and beams_k are foreign, so the angle is a function of
      the beam's angle, the beam index and the product ach12. */
  type RefineFn = (real, nat, Complex) -> real

  /** One element of the DOA output: the refined angle, the range (point
      index + 1 times the range step) and the squared amplitude of the
      strongest beam. */
  datatype Doa = Doa(angle: real, distance: real, power: real)

  /** The beams at sample p, nBeams of them, summed over the first k channels. */
  function Beams(rig: Rig, data: seq<seq<Complex>>, n: nat, k: nat): (r: seq<seq<Complex>>)
    requires Fits(data, k, n)
    ensures |r| == rig.nBeams
    ensures forall b :: 0 <= b < |r| ==> |r[b]| == n
  {
    seq(rig.nBeams, b requires 0 <= b < rig.nBeams => BeamSum(rig, data, n, b, k))
  }

  /** What `get_doa` writes for range sample p, as the source promises it:
      the first strongest beam, its sub-array product refined into an angle,
      the range and the amplitude. */
  function DoaAt(rig: Rig, data: seq<seq<Complex>>, n: nat, nChannels: nat, step: real,
                 beamAngles: seq<real>, refine: RefineFn, p: nat): Doa
    requires Fits(data, nChannels, n) && nChannels <= |rig.groups|
    requires rig.nBeams >= 1 && |beamAngles| == rig.nBeams && p < n
  {
    var amps := Amplitudes(Beams(rig, data, n, nChannels), p);
    var b := FirstMax(amps);
    var sub1 := SubArraySum(rig, data, n, First, b, p, nChannels);
    var sub2 := SubArraySum(rig, data, n, Second, b, p, nChannels);
    Doa(refine(beamAngles[b], b, Mul(sub1, sub2)), (p + 1) as real * step, amps[b])
  }

  /** The channel loop of `get_doa` for beam b: every channel copied,
      channel 1 negated, convolved with its kernel and added to the beam. */
  method FormBeam(rig: Rig, data: seq<seq<Complex>>, n: nat, nChannels: nat, b: nat)
    returns (beam: seq<Complex>, ach: seq<seq<Complex>>)
    requires Fits(data, nChannels, n)
    ensures beam == BeamSum(rig, data, n, b, nChannels)
    ensures |ach| == nChannels
    ensures forall c :: 0 <= c < nChannels ==> ach[c] == ChannelBeam(rig, data, n, c, b)
  {
    beam := Zeros(n);
    ach := [];
    var c := 0;
    while c < nChannels
      invariant 0 <= c <= nChannels && |ach| == c
      invariant beam == BeamSum(rig, data, n, b, c)
      invariant forall c' :: 0 <= c' < c ==> ach[c'] == ChannelBeam(rig, data, n, c', b)
    {
      var x := data[c][..n];
      if c == 1 {
        x := Negated(x);
      }
      var (_, y) := StoreConvolve(rig.kernels, KernelIndex(c, b, rig.nBeams), x, rig.conv);
      beam := AddSeq(beam, y);
      ach := ach + [y];
      c := c + 1;
    }
  }

  /** The beam loop of `get_doa`: all beams, and ach indexed by beam, then
      channel. */
  method FormBeams(rig: Rig, data: seq<seq<Complex>>, n: nat, nChannels: nat)
    returns (beams: seq<seq<Complex>>, ach: seq<seq<seq<Complex>>>)
    requires Fits(data, nChannels, n)
    ensures beams == Beams(rig, data, n, nChannels)
    ensures |ach| == rig.nBeams
    ensures forall b :: 0 <= b < rig.nBeams ==> |ach[b]| == nChannels
    ensures forall b, c :: 0 <= b < rig.nBeams && 0 <= c < nChannels ==> ach[b][c] == ChannelBeam(rig, data, n, c, b)
  {
    beams := [];
    ach := [];
    var b := 0;
    while b < rig.nBeams
      invariant 0 <= b <= rig.nBeams && |beams| == b && |ach| == b
      invariant forall b' :: 0 <= b' < b ==> beams[b'] == BeamSum(rig, data, n, b', nChannels)
      invariant forall b' :: 0 <= b' < b ==> |ach[b']| == nChannels
      invariant forall b', c :: 0 <= b' < b && 0 <= c < nChannels ==> ach[b'][c] == ChannelBeam(rig, data, n, c, b')
    {
      var beam, achB := FormBeam(rig, data, n, nChannels, b);
      beams := beams + [beam];
      ach := ach + [achB];
      b := b + 1;
    }
  }

  /** The refinement loop over the channels for one sample of one beam: the
      first sub-array's sum and the second's conjugated sum. */
  method SubArraySums(rig: Rig, data: seq<seq<Complex>>, n: nat, nChannels: nat, b: nat, p: nat,
                      achB: seq<seq<Complex>>)
    returns (ach1: Complex, ach2: Complex)
    requires Fits(data, nChannels, n) && nChannels <= |rig.groups| && p < n
    requires |achB| == nChannels
    requires forall c :: 0 <= c < nChannels ==> achB[c] == ChannelBeam(rig, data, n, c, b)
    ensures ach1 == SubArraySum(rig, data, n, First, b, p, nChannels)
    ensures ach2 == SubArraySum(rig, data, n, Second, b, p, nChannels)
  {
    ach1, ach2 := Zero, Zero;
    var c := 0;
    while c < nChannels
      invariant 0 <= c <= nChannels
      invariant ach1 == SubArraySum(rig, data, n, First, b, p, c)
      invariant ach2 == SubArraySum(rig, data, n, Second, b, p, c)
    {
      var x := achB[c][p];
      if InSubArray(rig.groups[c], First) {
        ach1 := Add(ach1, x);
      }
      if InSubArray(rig.groups[c], Second) {
        ach2 := Add(ach2, Conj(x));
      }
      c := c + 1;
    }
  }

  /** The coarse scan of `get_doa`: per range sample the strongest beam. */
  method CoarseScan(beams: seq<seq<Complex>>, n: nat) returns (strongest: seq<nat>)
    requires |beams| >= 1
    requires forall b :: 0 <= b < |beams| ==> |beams[b]| == n
    ensures |strongest| == n
    ensures forall p :: 0 <= p < n ==> strongest[p] == FirstMax(Amplitudes(beams, p))
  {
    strongest := [];
    var p := 0;
    while p < n
      invariant 0 <= p <= n && |strongest| == p
      invariant forall q :: 0 <= q < p ==> strongest[q] == FirstMax(Amplitudes(beams, q))
    {
      var best, _ := StrongestBeam(beams, p);
      strongest := strongest + [best];
      p := p + 1;
    }
  }

  /** The refinement of one range sample, given the beams, ach and the
      strongest beam of that sample. */
  method RefineSample(rig: Rig, data: seq<seq<Complex>>, n: nat, nChannels: nat, step: real,
                      beamAngles: seq<real>, refine: RefineFn, beams: seq<seq<Complex>>,
                      ach: seq<seq<seq<Complex>>>, b: nat, p: nat)
    returns (d: Doa)
    requires Fits(data, nChannels, n) && nChannels <= |rig.groups|
    requires rig.nBeams >= 1 && |beamAngles| == rig.nBeams && p < n
    requires beams == Beams(rig, data, n, nChannels)
    requires b == FirstMax(Amplitudes(beams, p))
    requires |ach| == rig.nBeams && |ach[b]| == nChannels
    requires forall c :: 0 <= c < nChannels ==> ach[b][c] == ChannelBeam(rig, data, n, c, b)
    ensures d == DoaAt(rig, data, n, nChannels, step, beamAngles, refine, p)
  {
    var ach1, ach2 := SubArraySums(rig, data, n, nChannels, b, p, ach[b]);
    d := Doa(refine(beamAngles[b], b, Mul(ach1, ach2)), (p + 1) as real * step, Norm2(beams[b][p]));
  }

  /** The body of `get_doa` once the buffers are in place: form the beams,
      find the strongest beam per sample, refine its angle. */
  method EstimateDoa(rig: Rig, data: seq<seq<Complex>>, n: nat, nChannels: nat, step: real,
                     beamAngles: seq<real>, refine: RefineFn)
    returns (doa: seq<Doa>)
    requires Fits(data, nChannels, n) && nChannels <= |rig.groups|
    requires rig.nBeams >= 1 && |beamAngles| == rig.nBeams
    ensures |doa| == n
    ensures forall p :: 0 <= p < n ==> doa[p] == DoaAt(rig, data, n, nChannels, step, beamAngles, refine, p)
  {
    var beams, ach := FormBeams(rig, data, n, nChannels);
    var strongest := CoarseScan(beams, n);
    doa := [];
    var p := 0;
    while p < n
      invariant 0 <= p <= n && |doa| == p
      invariant forall q :: 0 <= q < p ==> doa[q] == DoaAt(rig, data, n, nChannels, step, beamAngles, refine, q)
    {
      var d := RefineSample(rig, data, n, nChannels, step, beamAngles, refine, beams, ach, strongest[p], p);
      doa := doa + [d];
      p := p + 1;
    }
  }

  /** A phase centre: the mean offset of a sub-array's members. */
  function PhaseCentreOf(offsets: seq<real>, groups: seq<int>, s: SubArray, k: nat): real
    requires k <= |offsets| && k <= |groups|
    requires GroupTotal(offsets, groups, s, k).1 > 0
  {
    GroupTotal(offsets, groups, s, k).0 / GroupTotal(offsets, groups, s, k).1 as real
  }

  /** The beam-forming weights of one channel and beam (foreign: the phase
      ramp from the offsets, the beam angle and the wave numbers, combined
      with the conjugated spectrum of the channel's signal image): channel,
      beam, transform size and the zero-padded signal image if any. */
  type WeightsFn = (nat, nat, nat, Option<seq<Complex>>) -> seq<Complex>

  /** The convolution object's verdict on `set_image_fd (index, kernel)`
      (foreign). */
  type AcceptFn = (nat, seq<Complex>) -> bool

  /** Everything `set_signals` computes its kernels from. */
  datatype Registration = Registration(nChannels: nat, nBeams: nat, fftSize: nat,
                                       signals: Option<seq<seq<Complex>>>, nPoints: nat, weights: WeightsFn)

  /** The signal images, when given, cover every channel and fit the transform. */
  predicate SignalsFit(r: Registration)
  {
    r.signals.Some? && r.nChannels > 0 ==> Fits(r.signals.value, r.nChannels, r.nPoints) && r.nPoints <= r.fftSize
  }

  /** The flat index of channel c's first kernel, c * n_beams, counted up
      channel by channel. */
  function ChannelStart(r: Registration, c: nat): nat
  {
    if c == 0 then 0 else ChannelStart(r, c - 1) + r.nBeams
  }

  lemma {:induction false} ChannelStartIsProduct(r: Registration, c: nat)
    ensures ChannelStart(r, c) == c * r.nBeams
  {
    if c > 0 {
      ChannelStartIsProduct(r, c - 1);
    }
  }

  /** The number of kernels `set_signals` registers, n_channels * n_beams. */
  function Pairs(r: Registration): nat
  {
    ChannelStart(r, r.nChannels)
  }

  /** Every channel's kernels lie below Pairs(r). */
  lemma ChannelStartBound(r: Registration, c: nat)
    requires c < r.nChannels
    ensures ChannelStart(r, c) + r.nBeams <= Pairs(r)
  {
    ChannelStartIsProduct(r, c);
    ChannelStartIsProduct(r, r.nChannels);
    MulLe(c + 1, r.nChannels, r.nBeams);
  }

  /** signal_f before its transform: the image copied, the rest zeroed. */
  function SignalImage(r: Registration, c: nat): Option<seq<Complex>>
    requires SignalsFit(r) && c < r.nChannels
  {
    if r.signals.None? then None else Some(Resize(r.signals.value[c][..r.nPoints], r.fftSize))
  }

  /** The kernel registered at flat index i = c * n_beams + b. */
  function KernelAt(r: Registration, i: nat): seq<Complex>
    requires SignalsFit(r) && i < Pairs(r)
  {
    ChannelStartIsProduct(r, r.nChannels);
    DivBelow(i, r.nChannels, r.nBeams);
    var c := i / r.nBeams;
    Resize(r.weights(c, i % r.nBeams, r.fftSize, SignalImage(r, c)), r.fftSize)
  }

  /** An index below n * m has a positive m and a quotient below n. */
  lemma DivBelow(i: nat, n: nat, m: nat)
    requires i < n * m
    ensures m > 0 && i / m < n
  {
    if i / m >= n {
      MulLe(n, i / m, m);
    }
  }

  /** The kernel at c * n_beams + b is the weights of channel c and beam b. */
  lemma KernelAtPair(r: Registration, c: nat, b: nat, i: nat)
    requires SignalsFit(r) && c < r.nChannels && b < r.nBeams && i == c * r.nBeams + b
    ensures i < Pairs(r)
    ensures KernelAt(r, i) == Resize(r.weights(c, b, r.fftSize, SignalImage(r, c)), r.fftSize)
  {
    KernelIndexDiv(c, b, r.nBeams);
    ChannelStartBound(r, c);
    ChannelStartIsProduct(r, c);
  }

  /** The store accepts every kernel with flat index below upto. */
  predicate AcceptedBelow(r: Registration, accept: AcceptFn, upto: nat)
    requires SignalsFit(r) && upto <= Pairs(r)
  {
    upto == 0 || (AcceptedBelow(r, accept, upto - 1) && accept(upto - 1, KernelAt(r, upto - 1)))
  }

  /** AcceptedBelow means what it says, index by index. */
  lemma {:induction false} AcceptedBelowMeans(r: Registration, accept: AcceptFn, upto: nat)
    requires SignalsFit(r) && upto <= Pairs(r)
    ensures AcceptedBelow(r, accept, upto) <==> forall j :: 0 <= j < upto ==> accept(j, KernelAt(r, j))
  {
    if upto > 0 {
      AcceptedBelowMeans(r, accept, upto - 1);
    }
  }

  /** The first index whose kernel the store refuses, or Pairs(r) when it
      accepts them all: the scan of `set_signals` from index i on. */
  function FirstRejected(r: Registration, accept: AcceptFn, i: nat): (f: nat)
    requires SignalsFit(r) && i <= Pairs(r)
    ensures i <= f <= Pairs(r)
    decreases Pairs(r) - i
  {
    if i == Pairs(r) then i
    else if !accept(i, KernelAt(r, i)) then i
    else FirstRejected(r, accept, i + 1)
  }

  /** From a fully accepted prefix, FirstRejected is the first refusal:
      everything before it is accepted and the one at it, if any, is not;
      and conversely that characterises it. */
  lemma {:induction false} FirstRejectedIsFirst(r: Registration, accept: AcceptFn, i: nat, f: nat)
    requires SignalsFit(r) && i <= f <= Pairs(r)
    requires AcceptedBelow(r, accept, i)
    ensures FirstRejected(r, accept, i) == f <==>
      AcceptedBelow(r, accept, f) && (f < Pairs(r) ==> !accept(f, KernelAt(r, f)))
    decreases Pairs(r) - i
  {
    if i < Pairs(r) && accept(i, KernelAt(r, i)) {
      if i < f {
        FirstRejectedIsFirst(r, accept, i + 1, f);
      } else {
        assert FirstRejected(r, accept, i + 1) > i;
      }
    } else if i < f {
      AcceptedBelowMeans(r, accept, f);
    }
  }

  /** An accepted kernel written to the convolution object at index i. The
      image at index 0 fixes the transform length of the whole object, so a
      write there drops every other kernel; a write elsewhere replaces that
      index only. */
  function Store(kernels: map<nat, seq<Complex>>, i: nat, w: seq<Complex>): map<nat, seq<Complex>>
  {
    if i == 0 then map[0 := w] else kernels[i := w]
  }

  /** The store after the kernels with flat index below upto are added, in
      index order. */
  function Registered(kernels: map<nat, seq<Complex>>, r: Registration, upto: nat): map<nat, seq<Complex>>
    requires SignalsFit(r) && upto <= Pairs(r)
  {
    if upto == 0 then kernels else Store(Registered(kernels, r, upto - 1), upto - 1, KernelAt(r, upto - 1))
  }

  /** Once index 0 is registered the store holds exactly the new kernels:
      one at every index below upto and none elsewhere, whatever it held
      before. With nothing registered it is the store as it was. */
  lemma {:induction false} RegisteredContents(kernels: map<nat, seq<Complex>>, r: Registration, upto: nat)
    requires SignalsFit(r) && upto <= Pairs(r)
    ensures upto == 0 ==> Registered(kernels, r, upto) == kernels
    ensures upto > 0 ==> forall k: nat :: k in Registered(kernels, r, upto) <==> k < upto
    ensures forall j :: 0 <= j < upto ==> Registered(kernels, r, upto)[j] == KernelAt(r, j)
  {
    if upto > 0 {
      RegisteredContents(kernels, r, upto - 1);
    }
  }

  /** One beam of `set_signals`: compute the kernel of channel c and beam b
      and hand it to the store at c * n_beams + b. */
  method RegisterBeam(ghost kernels: map<nat, seq<Complex>>, current: map<nat, seq<Complex>>,
                      r: Registration, accept: AcceptFn, c: nat, b: nat, i: nat, image: Option<seq<Complex>>)
    returns (accepted: bool, stored: map<nat, seq<Complex>>)
    requires SignalsFit(r) && c < r.nChannels && b < r.nBeams && i == ChannelStart(r, c) + b
    requires image == SignalImage(r, c)
    ensures i < Pairs(r)
    ensures accepted <==> accept(i, KernelAt(r, i))
    ensures current == Registered(kernels, r, i) ==> stored == Registered(kernels, r, i + 1)
  {
    ChannelStartIsProduct(r, c);
    KernelAtPair(r, c, b, i);
    var w := Resize(r.weights(c, b, r.fftSize, image), r.fftSize);
    accepted := accept(i, w);
    stored := Store(current, i, w);
  }

  /** One channel of `set_signals`: the kernels of all beams of channel c,
      stopping at the first one the store refuses. */
  method RegisterChannel(ghost kernels: map<nat, seq<Complex>>, current: map<nat, seq<Complex>>,
                         r: Registration, accept: AcceptFn, c: nat, base: nat)
    returns (ok: bool, stored: map<nat, seq<Complex>>, next: nat)
    requires SignalsFit(r) && c < r.nChannels && base == ChannelStart(r, c)
    requires base <= Pairs(r) && AcceptedBelow(r, accept, base)
    requires current == Registered(kernels, r, base)
    ensures base + r.nBeams <= Pairs(r) && base <= next <= base + r.nBeams
    ensures AcceptedBelow(r, accept, next)
    ensures ok ==> next == base + r.nBeams
    ensures !ok ==> next < Pairs(r) && !accept(next, KernelAt(r, next))
    ensures stored == Registered(kernels, r, next)
  {
    ChannelStartBound(r, c);
    ok := true;
    stored := current;
    var image := SignalImage(r, c);
    var b := 0;
    while b < r.nBeams
      invariant 0 <= b <= r.nBeams
      invariant AcceptedBelow(r, accept, base + b)
      invariant stored == Registered(kernels, r, base + b)
    {
      var accepted, after := RegisterBeam(kernels, stored, r, accept, c, b, base + b, image);
      if !accepted {
        ok, next := false, base + b;
        return;
      }
      stored := after;
      b := b + 1;
    }
    next := base + r.nBeams;
  }

  /** The channel loop of `set_signals`: the kernels in flat index order
      until the store refuses one. Succeeds exactly when every kernel is
      accepted; the store then holds the kernels before the first refusal. */
  method RegisterKernels(kernels: map<nat, seq<Complex>>, r: Registration, accept: AcceptFn)
    returns (ok: bool, stored: map<nat, seq<Complex>>)
    requires SignalsFit(r)
    ensures ok <==> FirstRejected(r, accept, 0) == Pairs(r)
    ensures stored == Registered(kernels, r, FirstRejected(r, accept, 0))
  {
    stored := kernels;
    var c := 0;
    var base := 0;
    while c < r.nChannels
      invariant 0 <= c <= r.nChannels && base == ChannelStart(r, c) && base <= Pairs(r)
      invariant AcceptedBelow(r, accept, base)
      invariant stored == Registered(kernels, r, base)
    {
      var next;
      ok, stored, next := RegisterChannel(kernels, stored, r, accept, c, base);
      if !ok {
        FirstRejectedIsFirst(r, accept, 0, next);
        return;
      }
      c := c + 1;
      base := base + r.nBeams;
    }
    ok := true;
    FirstRejectedIsFirst(r, accept, 0, Pairs(r));
  }

  /** The transform size of `set_signals`: 256 for plain beam steering,
      otherwise twice the image length rounded up to a table size. */
  function SignalsFftSize(signals: Option<seq<seq<Complex>>>, nPoints: nat): nat
  {
    if signals.None? then ToneFftSize else Fft.TransformSize(2 * nPoints)
  }

  /** `realloc_buffers`: the recorded maximum and the points the scratch
      buffers hold. A request within the recorded maximum changes nothing;
      a larger one regrows every buffer to it. */
  function Realloc(maxNPoints: nat, bufferPoints: nat, n: nat): (nat, nat)
  {
    if maxNPoints >= n then (maxNPoints, bufferPoints) else (n, n)
  }

  /** Releasing the buffers as `free_buffers` is written: the buffers go,
      the recorded maximum stays. */
  function ReleaseAsWritten(maxNPoints: nat, bufferPoints: nat): (nat, nat)
  {
    (maxNPoints, 0)
  }

  /** Releasing the buffers with the recorded maximum reset with them. */
  function Release(maxNPoints: nat, bufferPoints: nat): (nat, nat)
  {
    (0, 0)
  }

  /** Whether every request of a run of `get_doa` calls, each regrowing the
      buffers first, finds buffers holding at least its points. */
  predicate ServesAll(maxNPoints: nat, bufferPoints: nat, requests: seq<nat>)
    decreases |requests|
  {
    || |requests| == 0
    || (var (m, b) := Realloc(maxNPoints, bufferPoints, requests[0]);
        requests[0] <= b && ServesAll(m, b, requests[1..]))
  }

  /** After a release as written, any later `get_doa` of at least one point
      and no more points than before finds the maximum large enough, skips
      the regrowth and writes into buffers holding no points. */
  lemma StaleMaximumLeavesBuffersEmpty(maxNPoints: nat, bufferPoints: nat, n: nat)
    requires 0 < n <= maxNPoints
    ensures var (m, b) := ReleaseAsWritten(maxNPoints, bufferPoints);
      Realloc(m, b, n) == (maxNPoints, 0) && !ServesAll(m, b, [n])
  {
  }

  /** While the buffers hold as many points as recorded, every request is
      served: the buffers then hold at least the requested points, the
      maximum never shrinks, and the two stay equal. */
  lemma ReallocServes(maxNPoints: nat, bufferPoints: nat, n: nat)
    requires bufferPoints == maxNPoints
    ensures var (m, b) := Realloc(maxNPoints, bufferPoints, n);
      b == m && n <= b && maxNPoints <= m && (n <= maxNPoints ==> m == maxNPoints)
  {
  }

  /** From buffers holding the recorded maximum, every run of requests is
      served. */
  lemma {:induction false} ReallocServesAll(maxNPoints: nat, bufferPoints: nat, requests: seq<nat>)
    requires bufferPoints == maxNPoints
    ensures ServesAll(maxNPoints, bufferPoints, requests)
    decreases |requests|
  {
    if |requests| > 0 {
      ReallocServes(maxNPoints, bufferPoints, requests[0]);
      var (m, b) := Realloc(maxNPoints, bufferPoints, requests[0]);
      ReallocServesAll(m, b, requests[1..]);
    }
  }

  /** After the corrected release every later run of requests is served. */
  lemma ReleaseRestoresInvariant(maxNPoints: nat, bufferPoints: nat, requests: seq<nat>)
    ensures var (m, b) := Release(maxNPoints, bufferPoints); ServesAll(m, b, requests)
  {
    ReallocServesAll(0, 0, requests);
  }

  /** The ±1 m loop of `configure` over the first count offsets. */
  method CheckOffsets(offsets: seq<real>, count: nat) returns (inRange: bool)
    requires count <= |offsets|
    ensures inRange == OffsetsInRange(offsets, count)
  {
    var c := 0;
    while c < count
      invariant 0 <= c <= count
      invariant OffsetsInRange(offsets, c)
    {
      if offsets[c] < -1.0 || offsets[c] > 1.0 {
        return false;
      }
      c := c + 1;
    }
    return true;
  }

  /** HyScanBeamforming: the configuration, the registered kernels and the
      sizes of the scratch buffers. */
  class Beamformer {
    var nChannels: nat
    var dataRate: real
    var signalFrequency: real
    var signalHeterodyne: real
    var offsets: seq<real>
    var groups: seq<int>
    var fieldOfView: real
    var soundVelocity: real
    var distanceStep: real
    /** d2 - d1: the distance between the two phase centres. */
    var antennaBase: real
    var nBeams: nat
    /** beams_a. */
    var beamAngles: seq<real>
    /** Whether the per-beam and per-channel scratch buffers exist. */
    var buffersReady: bool
    var maxNPoints: nat
    /** The points every scratch buffer holds. */
    var bufferPoints: nat
    /** The convolution object: kernels by conv_i. */
    var kernels: map<nat, seq<Complex>>

    predicate Valid()
      reads this
    {
      && |offsets| == nChannels && |groups| == nChannels && nChannels <= MaxNChannels
      && bufferPoints <= maxNPoints
      && (buffersReady ==> 1 <= nChannels <= nBeams <= MaxNBeams && |beamAngles| == nBeams)
    }

    /** The state a successful configuration leaves: the parameters stored,
        the step and the base derived, the beams laid out, no kernels, and
        scratch buffers holding no points. */
    predicate Configured(nCh: nat, rate: real, frequency: real, heterodyne: real, offs: seq<real>, grps: seq<int>,
                         fov: real, velocity: real, rawBeams: nat)
      reads this
      requires nCh <= |offs| && nCh <= |grps|
    {
      && nChannels == nCh && dataRate == rate && signalFrequency == frequency && signalHeterodyne == heterodyne
      && offsets == offs[..nCh] && groups == grps[..nCh]
      && fieldOfView == fov && soundVelocity == velocity && rate >= NearZero && distanceStep == velocity / rate / 2.0
      && GroupTotal(offs, grps, First, nCh).1 > 0 && GroupTotal(offs, grps, Second, nCh).1 > 0
      && antennaBase == PhaseCentreOf(offs, grps, Second, nCh) - PhaseCentreOf(offs, grps, First, nCh)
      && nBeams == Clamp(rawBeams, nCh, MaxNBeams)
      && |beamAngles| == nBeams
      && (forall b :: 0 <= b < nBeams ==> beamAngles[b] == BeamAngle(fov, nBeams, b))
      && buffersReady && bufferPoints == 0 && kernels == map[]
    }

    constructor ()
      ensures Valid() && nChannels == 0 && nBeams == 0 && !buffersReady && kernels == map[]
      ensures maxNPoints == 0 && bufferPoints == 0
    {
      nChannels := 0;
      dataRate, signalFrequency, signalHeterodyne := 0.0, 0.0, 0.0;
      offsets, groups := [], [];
      fieldOfView, soundVelocity, distanceStep, antennaBase := 0.0, 0.0, 0.0, 0.0;
      nBeams := 0;
      beamAngles := [];
      buffersReady := false;
      maxNPoints, bufferPoints := 0, 0;
      kernels := map[];
    }

    /** `free_buffers` and the null image at index 0 that `configure` writes
        next, which drops every kernel. As written, `free_buffers` keeps the
        recorded maximum; with resetMaximum it is reset with the buffers. */
    method Clear(resetMaximum: bool)
      modifies this
      ensures nChannels == 0 && offsets == [] && groups == [] && beamAngles == [] && !buffersReady
      ensures (maxNPoints, bufferPoints) == if resetMaximum then Release(old(maxNPoints), old(bufferPoints))
                                           else ReleaseAsWritten(old(maxNPoints), old(bufferPoints))
      ensures kernels == map[]
      ensures dataRate == old(dataRate) && signalFrequency == old(signalFrequency)
      ensures signalHeterodyne == old(signalHeterodyne) && fieldOfView == old(fieldOfView)
      ensures soundVelocity == old(soundVelocity) && distanceStep == old(distanceStep)
      ensures antennaBase == old(antennaBase) && nBeams == old(nBeams)
      ensures Valid()
    {
      offsets, groups, beamAngles := [], [], [];
      buffersReady := false;
      var released := if resetMaximum then Release(maxNPoints, bufferPoints)
                      else ReleaseAsWritten(maxNPoints, bufferPoints);
      maxNPoints, bufferPoints := released.0, released.1;
      nChannels := 0;
      kernels := map[];
    }

    /** The clear and the assignments of `configure`. */
    method Assign(nCh: nat, rate: real, frequency: real, heterodyne: real, offs: seq<real>, grps: seq<int>,
                  fov: real, velocity: real, resetMaximum: bool)
      requires 1 <= nCh <= MaxNChannels && nCh <= |offs| && nCh <= |grps| && rate >= NearZero
      modifies this
      ensures nChannels == nCh && dataRate == rate && signalFrequency == frequency && signalHeterodyne == heterodyne
      ensures offsets == offs[..nCh] && groups == grps[..nCh]
      ensures fieldOfView == fov && soundVelocity == velocity && distanceStep == velocity / rate / 2.0
      ensures !buffersReady && beamAngles == [] && bufferPoints == 0
      ensures maxNPoints == if resetMaximum then 0 else old(maxNPoints)
      ensures kernels == map[] && nBeams == old(nBeams) && antennaBase == old(antennaBase)
      ensures Valid()
    {
      Clear(resetMaximum);
      nChannels := nCh;
      dataRate, signalFrequency, signalHeterodyne := rate, frequency, heterodyne;
      offsets, groups := offs[..nCh], grps[..nCh];
      fieldOfView, soundVelocity := fov, velocity;
      distanceStep := soundVelocity / dataRate / 2.0;
    }

    /** The tail of `configure` once both phase centres exist: the base, the
        beam count, the beam angles and the buffers. */
    method Finish(offs: seq<real>, grps: seq<int>, rawBeams: nat)
      requires nChannels >= 1 && nChannels <= MaxNChannels && nChannels <= |offs| && nChannels <= |grps|
      requires offsets == offs[..nChannels] && groups == grps[..nChannels]
      requires GroupTotal(offs, grps, First, nChannels).1 > 0 && GroupTotal(offs, grps, Second, nChannels).1 > 0
      requires bufferPoints == 0 && kernels == map[]
      requires dataRate >= NearZero && distanceStep == soundVelocity / dataRate / 2.0
      modifies this
      ensures Configured(old(nChannels), dataRate, signalFrequency, signalHeterodyne, offs, grps,
                         fieldOfView, soundVelocity, rawBeams)
      ensures Valid()
      ensures kernels == old(kernels) && dataRate == old(dataRate) && signalFrequency == old(signalFrequency)
      ensures signalHeterodyne == old(signalHeterodyne) && fieldOfView == old(fieldOfView)
      ensures soundVelocity == old(soundVelocity) && distanceStep == old(distanceStep)
      ensures nChannels == old(nChannels) && offsets == old(offsets) && groups == old(groups)
      ensures maxNPoints == old(maxNPoints) && bufferPoints == old(bufferPoints)
    {
      var sum1, n1 := PhaseCentre(offs, grps, First, nChannels);
      var sum2, n2 := PhaseCentre(offs, grps, Second, nChannels);
      antennaBase := sum2 / n2 as real - sum1 / n1 as real;
      ClampedBeamCount(rawBeams, nChannels);
      nBeams := Clamp(rawBeams, nChannels, MaxNBeams);
      beamAngles := FillAngles(fieldOfView, nBeams);
      buffersReady := true;
    }

    /** `configure` as written: the parameter check, the ±1 m check over the
        channel count of the PREVIOUS configuration, then the clear and the
        assignments, and only then the sub-array check, which can fail on a
        cleared, half-assigned object. */
    method Configure(nCh: nat, rate: real, frequency: real, heterodyne: real,
                     offsetsIn: Option<seq<real>>, groupsIn: Option<seq<int>>,
                     fov: real, velocity: real, rawBeams: nat)
      returns (ok: bool)
      requires Valid()
      requires ParamsValid(nCh, rate, frequency, fov, velocity, offsetsIn, groupsIn) ==>
        nCh <= |offsetsIn.value| && nChannels <= |offsetsIn.value| && nCh <= |groupsIn.value|
      modifies this
      ensures Valid()
      ensures !ParamsValid(nCh, rate, frequency, fov, velocity, offsetsIn, groupsIn) ==> !ok && unchanged(this)
      ensures (ParamsValid(nCh, rate, frequency, fov, velocity, offsetsIn, groupsIn)
               && !OffsetsInRange(offsetsIn.value, old(nChannels))) ==> !ok && unchanged(this)
      ensures (ParamsValid(nCh, rate, frequency, fov, velocity, offsetsIn, groupsIn)
               && OffsetsInRange(offsetsIn.value, old(nChannels))) ==>
          var offs, grps := offsetsIn.value, groupsIn.value;
          && (ok <==> GroupTotal(offs, grps, First, nCh).1 > 0 && GroupTotal(offs, grps, Second, nCh).1 > 0)
          && kernels == map[] && maxNPoints == old(maxNPoints) && bufferPoints == 0
          && (ok ==> Configured(nCh, rate, frequency, heterodyne, offs, grps, fov, velocity, rawBeams))
          && (!ok ==> nChannels == nCh && offsets == offs[..nCh] && groups == grps[..nCh]
                      && dataRate == rate && signalFrequency == frequency && signalHeterodyne == heterodyne
                      && fieldOfView == fov && soundVelocity == velocity && distanceStep == velocity / rate / 2.0
                      && antennaBase == old(antennaBase)
                      && !buffersReady && beamAngles == [] && nBeams == old(nBeams))
    {
      if !ParamsValid(nCh, rate, frequency, fov, velocity, offsetsIn, groupsIn) {
        return false;
      }
      var offs, grps := offsetsIn.value, groupsIn.value;
      var inRange := CheckOffsets(offs, nChannels);
      if !inRange {
        return false;
      }
      Assign(nCh, rate, frequency, heterodyne, offs, grps, fov, velocity, false);
      var _, n1 := PhaseCentre(offsets, groups, First, nChannels);
      SameGroupTotal(offs, grps, First, nCh);
      if n1 == 0 {
        return false;
      }
      var _, n2 := PhaseCentre(offsets, groups, Second, nChannels);
      SameGroupTotal(offs, grps, Second, nCh);
      if n2 == 0 {
        return false;
      }
      Finish(offs, grps, rawBeams);
      return true;
    }

    /** `configure` with every check made before anything changes: the
        offsets of the NEW channels are checked, and a failure of any check
        leaves the object as it was. */
    method ConfigureChecked(nCh: nat, rate: real, frequency: real, heterodyne: real,
                            offsetsIn: Option<seq<real>>, groupsIn: Option<seq<int>>,
                            fov: real, velocity: real, rawBeams: nat)
      returns (ok: bool)
      requires Valid()
      requires ParamsValid(nCh, rate, frequency, fov, velocity, offsetsIn, groupsIn) ==>
        nCh <= |offsetsIn.value| && nCh <= |groupsIn.value|
      modifies this
      ensures Valid()
      ensures ok <==>
        && ParamsValid(nCh, rate, frequency, fov, velocity, offsetsIn, groupsIn)
        && OffsetsInRange(offsetsIn.value, nCh)
        && GroupTotal(offsetsIn.value, groupsIn.value, First, nCh).1 > 0
        && GroupTotal(offsetsIn.value, groupsIn.value, Second, nCh).1 > 0
      ensures !ok ==> unchanged(this)
      ensures ok ==> maxNPoints == 0
      ensures ok ==> Configured(nCh, rate, frequency, heterodyne, offsetsIn.value, groupsIn.value, fov, velocity, rawBeams)
    {
      if !ParamsValid(nCh, rate, frequency, fov, velocity, offsetsIn, groupsIn) {
        return false;
      }
      var offs, grps := offsetsIn.value, groupsIn.value;
      var inRange := CheckOffsets(offs, nCh);
      var _, n1 := PhaseCentre(offs, grps, First, nCh);
      var _, n2 := PhaseCentre(offs, grps, Second, nCh);
      if !inRange || n1 == 0 || n2 == 0 {
        return false;
      }
      Assign(nCh, rate, frequency, heterodyne, offs, grps, fov, velocity, true);
      Finish(offs, grps, rawBeams);
      return true;
    }

    /** `realloc_buffers`. */
    method ReallocBuffers(n: nat)
      requires Valid()
      modifies this`maxNPoints, this`bufferPoints
      ensures (maxNPoints, bufferPoints) == Realloc(old(maxNPoints), old(bufferPoints), n)
      ensures Valid() && n <= maxNPoints
      ensures old(bufferPoints) == old(maxNPoints) ==> n <= bufferPoints
    {
      if maxNPoints >= n {
        return;
      }
      bufferPoints := n;
      maxNPoints := n;
    }

    /** `set_signals`: one kernel per channel and beam, registered in
        channel-major order until the store refuses one. */
    method SetSignals(signals: Option<seq<seq<Complex>>>, nPoints: nat, weights: WeightsFn, accept: AcceptFn)
      returns (ok: bool)
      requires Valid()
      requires nChannels > 0 ==> buffersReady
      requires signals.Some? && nChannels > 0 ==>
        2 * nPoints <= Fft.MaxTransformSize && Fits(signals.value, nChannels, nPoints)
      modifies this`kernels
      ensures Valid()
      ensures var r := Registration(nChannels, nBeams, SignalsFftSize(signals, nPoints), signals, nPoints, weights);
        && SignalsFit(r)
        && (ok <==> FirstRejected(r, accept, 0) == Pairs(r))
        && kernels == Registered(old(kernels), r, FirstRejected(r, accept, 0))
    {
      var fftSize := ToneFftSize;
      if signals.Some? {
        fftSize := Fft.GetTransformSize(2 * nPoints);
        Fft.TransformSizeIsLeast(2 * nPoints);
      }
      var r := Registration(nChannels, nBeams, fftSize, signals, nPoints, weights);
      ok, kernels := RegisterKernels(kernels, r, accept);
    }

    /** `get_doa`: fails on an unconfigured object; otherwise regrows the
        buffers and returns one DOA record per range sample. */
    method GetDoa(data: seq<seq<Complex>>, n: nat, conv: ConvolveFn, refine: RefineFn)
      returns (ok: bool, doa: seq<Doa>)
      requires Valid()
      requires nChannels > 0 ==> buffersReady && Fits(data, nChannels, n)
      requires nChannels > 0 ==> n <= Realloc(maxNPoints, bufferPoints, n).1
      modifies this`maxNPoints, this`bufferPoints
      ensures Valid()
      ensures ok <==> nChannels > 0
      ensures !ok ==> maxNPoints == old(maxNPoints) && bufferPoints == old(bufferPoints) && doa == []
      ensures ok ==> (maxNPoints, bufferPoints) == Realloc(old(maxNPoints), old(bufferPoints), n) && n <= bufferPoints
      ensures ok ==> |doa| == n && forall p :: 0 <= p < n ==>
        doa[p] == DoaAt(Rig(kernels, nBeams, groups, conv), data, n, nChannels, distanceStep, beamAngles, refine, p)
    {
      if nChannels == 0 {
        return false, [];
      }
      ReallocBuffers(n);
      doa := EstimateDoa(Rig(kernels, nBeams, groups, conv), data, n, nChannels, distanceStep, beamAngles, refine);
      ok := true;
    }
  }

  /** Where the offsets and groups agree on the first k channels, so do the
      sub-array totals. */
  lemma {:induction false} SameGroupTotal(offs: seq<real>, grps: seq<int>, s: SubArray, k: nat)
    requires k <= |offs| && k <= |grps|
    ensures GroupTotal(offs[..k], grps[..k], s, k) == GroupTotal(offs, grps, s, k)
  {
    PrefixGroupTotal(offs, grps, offs[..k], grps[..k], s, k);
  }

  lemma {:induction false} PrefixGroupTotal(offs: seq<real>, grps: seq<int>, offs': seq<real>, grps': seq<int>,
                                            s: SubArray, k: nat)
    requires k <= |offs| && k <= |grps| && k <= |offs'| && k <= |grps'|
    requires forall c :: 0 <= c < k ==> offs[c] == offs'[c] && grps[c] == grps'[c]
    ensures GroupTotal(offs', grps', s, k) == GroupTotal(offs, grps, s, k)
  {
    if k > 0 {
      PrefixGroupTotal(offs, grps, offs', grps', s, k - 1);
    }
  }

  /** The first configuration checks no offset at all: an array with an
      antenna 5 m off centre is accepted. */
  method UncheckedOffsetExample() returns (ok: bool, offset: real)
    ensures ok && offset == 5.0
  {
    var bf := new Beamformer();
    ok := bf.Configure(1, 1.0, 1.0, 0.0, Some([5.0]), Some([3]), 1.0, 1500.0, 8);
    offset := bf.offsets[0];
  }

  /** The corrected configuration refuses that array. */
  method CheckedOffsetExample() returns (ok: bool)
    ensures !ok
  {
    var bf := new Beamformer();
    ok := bf.ConfigureChecked(1, 1.0, 1.0, 0.0, Some([5.0]), Some([3]), 1.0, 1500.0, 8);
  }

  /** A reconfiguration whose second sub-array is empty fails after the
      clear: the object reports channels but has no beams and no buffers. */
  method EmptyGroupExample() returns (ok: bool, channels: nat, buffersReady: bool)
    ensures !ok && channels == 1 && !buffersReady
  {
    var bf := new Beamformer();
    var first := bf.Configure(1, 1.0, 1.0, 0.0, Some([0.0]), Some([3]), 1.0, 1500.0, 8);
    ok := bf.Configure(1, 1.0, 1.0, 0.0, Some([0.0]), Some([1]), 1.0, 1500.0, 8);
    channels, buffersReady := bf.nChannels, bf.buffersReady;
  }

  /** The corrected configuration fails on the same call without touching
      the working configuration. */
  method CheckedEmptyGroupExample() returns (ok: bool, channels: nat, buffersReady: bool)
    ensures !ok && channels == 1 && buffersReady
  {
    var bf := new Beamformer();
    var first := bf.ConfigureChecked(1, 1.0, 1.0, 0.0, Some([0.0]), Some([3]), 1.0, 1500.0, 8);
    ok := bf.ConfigureChecked(1, 1.0, 1.0, 0.0, Some([0.0]), Some([1]), 1.0, 1500.0, 8);
    channels, buffersReady := bf.nChannels, bf.buffersReady;
  }

  /** The stale maximum reached through the object: a `get_doa` of 100
      points and a second configuration leave the recorded maximum at 100
      with buffers holding no points, so a `get_doa` of 50 points skips the
      regrowth and finds no room in the buffers. */
  method StaleMaximumExample(conv: ConvolveFn, refine: RefineFn) returns (maxNPoints: nat, bufferPoints: nat)
    ensures maxNPoints == 100 && bufferPoints == 0 && Realloc(maxNPoints, bufferPoints, 50) == (100, 0)
  {
    var bf := new Beamformer();
    var first := bf.Configure(1, 1.0, 1.0, 0.0, Some([0.0]), Some([3]), 1.0, 1500.0, 8);
    var ok, doa := bf.GetDoa([Zeros(100)], 100, conv, refine);
    var again := bf.Configure(1, 1.0, 1.0, 0.0, Some([0.0]), Some([3]), 1.0, 1500.0, 8);
    maxNPoints, bufferPoints := bf.maxNPoints, bf.bufferPoints;
  }

  /** The corrected configuration resets the maximum, so the same `get_doa`
      of 50 points regrows the buffers to hold them. */
  method CheckedStaleMaximumExample(conv: ConvolveFn, refine: RefineFn) returns (maxNPoints: nat, bufferPoints: nat)
    ensures maxNPoints == 0 && Realloc(maxNPoints, bufferPoints, 50) == (50, 50)
  {
    var bf := new Beamformer();
    var first := bf.ConfigureChecked(1, 1.0, 1.0, 0.0, Some([0.0]), Some([3]), 1.0, 1500.0, 8);
    var ok, doa := bf.GetDoa([Zeros(100)], 100, conv, refine);
    var again := bf.ConfigureChecked(1, 1.0, 1.0, 0.0, Some([0.0]), Some([3]), 1.0, 1500.0, 8);
    maxNPoints, bufferPoints := bf.maxNPoints, bf.bufferPoints;
  }
}
