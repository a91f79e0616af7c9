# hyscanmath in Dafny

A model of the index, buffer and selection logic at the core of libhyscanmath,
HyScan's signal-processing library for sonar data. It covers six components:

- **Fft** (`fft.dfy`): the table of admissible transform sizes and the rounding
  of a request to it. Also the allocation check, the plan cache of `prepare`,
  the frequency alignment ("transposition", a rotation of the spectrum) and
  the four transform entry points with their null guards.
- **Convolution** (`convolution.dfy`): overlap-add block convolution.
  `set_image` searches for the transform size 2^a·3^b·5^c and stores the
  prepared kernel. `convolve` counts the blocks, grows the scratch buffers,
  zero-pads the input and writes every block back into its own range.
- **Beamforming** (`beamforming.dfy`): direction-of-arrival estimation.
  - `configure`: validation, the two sub-arrays and their phase centres, the
    clamped beam count and the angle grid.
  - `realloc_buffers`.
  - `set_signals`: one kernel per channel and beam, at `channel·n_beams + beam`.
  - `get_doa`: beam sums, the first strongest beam per range sample, the
    range, and the sub-array sums the angle refinement starts from.
- **MathFunctions** (`math_functions.dfy`): mean, minimum and maximum over
  `[min, max)` of a buffer of floats or complex floats, with the shared range
  check.
- **Stats** (`stats.dfy`): the angle wrap, the plain and weighted circular
  means, and the circular deviation with its folded difference.
- **EchoSvp** (`echo_svp.dfy`): depth from echo time through a
  sound-velocity profile.

`common.dfy` holds the complex sample type and the optional value shared by
all of them.

Floats are modelled as `real`. Every foreign routine becomes a function
parameter of the operation that calls it:

- the Fourier transforms of pffft;
- sin, cos, atan2 and sqrt;
- the kernel weights;
- the angle refinement;
- the convolution object's verdicts.

Each imperative routine is a method proved against a specification function.
The properties the source promises are proved as lemmas about those functions.

## Model

| member | source | states |
|---|---|---|
| Fft.TableAscending | hyscanmath/hyscan-fft.c:102-126 | the size table has 240 entries, runs from 32 to 1048576 and is strictly ascending |
| Fft.FirstAtLeastIsLeast | hyscanmath/hyscan-fft.c:627-634 | on an ascending table of positive sizes the scan returns the least entry at least the request, and 0 exactly when no entry is large enough |
| Fft.TransformSizeIsLeast | hyscanmath/hyscan-fft.c:621-637 | rounding gives 0 exactly for requests above 1048576; otherwise a table entry at least the request and no larger than any other such entry |
| Fft.TransformSizeMonotone | hyscanmath/hyscan-fft.c:621-637 | a larger request never rounds to a smaller size, and a smaller request succeeds whenever a larger one does |
| Fft.TransformSizeFixedPoints | hyscanmath/hyscan-fft.c:621-637 | the sizes rounding leaves unchanged are exactly the table entries |
| Fft.TransformSizeIdempotent | hyscanmath/hyscan-fft.c:621-637 | rounding a rounded size changes nothing |
| Fft.GetTransformSize | hyscanmath/hyscan-fft.c:621-637 | the loop with early break returns TransformSize, the first table entry at least the request, or 0 |
| Fft.Alloc | hyscanmath/hyscan-fft.c:650-678 | succeeds exactly for a valid type and a table size, and then returns that many zeroed floats or complex samples |
| Fft.RotateAt | hyscanmath/hyscan-fft.c:340-347 | after the segment swap, position j holds input sample (j + size_first) mod fft_size |
| Fft.RotatePermutes | hyscanmath/hyscan-fft.c:340-347 | the segment swap loses and duplicates no sample |
| Fft.ClampHeterodyne | hyscanmath/hyscan-fft.c:327-332 | the heterodyne ends in [f0 - rate/2, f0 + rate/2 - rate/fft_size] for a non-negative rate, and is kept when it already lies there |
| Fft.ShiftDown | hyscanmath/hyscan-fft.c:345 | every sample moves size_first places to the front; the tail keeps its samples |
| Fft.CopyIn | hyscanmath/hyscan-fft.c:346-347 | the saved head is copied behind the moved part; the front is kept |
| Fft.Transposition | hyscanmath/hyscan-fft.c:340-347 | the buffer afterwards is the old buffer rotated left by fft_size - index0 |
| Fft.StoreSpectrum | hyscanmath/hyscan-fft.c:479-487 | the caller's buffer holds the spectrum, rotated when transposition is on |
| Fft.AlignedCopy | hyscanmath/hyscan-fft.c:595-603 | the internal buffer holds the spectrum, rotated when transposition is on |
| Fft.Engine.constructor | hyscanmath/hyscan-fft.c:183-195 | a new engine has no plan, the invalid type, size 32 and alignment off |
| Fft.Engine.SetTransposition | hyscanmath/hyscan-fft.c:375-392 | stores the alignment flag and the three frequencies and nothing else |
| Fft.Engine.AllocInternal | hyscanmath/hyscan-fft.c:247-266 | the internal buffer becomes fft_size zeroed values of the plan's kind |
| Fft.Engine.Prepare | hyscanmath/hyscan-fft.c:212-245 | fails with nothing changed exactly when the size does not round. It rebuilds the plan and buffers only when the type or the rounded size changed, and otherwise keeps them. The direction is taken on every success |
| Fft.Engine.TransformReal | hyscanmath/hyscan-fft.c:408-440 | fails on null data with nothing changed, and otherwise exactly when prepare fails, again with nothing changed. On success the data holds the real transform, never aligned, and a plan is built only when the type or size changed. The alignment settings are always kept |
| Fft.Engine.TransformComplex | hyscanmath/hyscan-fft.c:458-494 | the same guards and the same frame; on success the data holds the complex transform, rotated when the (kept) transposition flag is on |
| Fft.Engine.TransformConstReal | hyscanmath/hyscan-fft.c:513-549 | fails on null data with nothing changed, and otherwise exactly when prepare fails, again with nothing changed. On success it returns the internal buffer, which holds the transform of the input zero-padded to fft_size. The alignment settings are always kept |
| Fft.Engine.TransformConstComplex | hyscanmath/hyscan-fft.c:570-610 | the same guards and the same frame, with the result rotated when the (kept) transposition flag is on |
| Convolution.OptimalSize | hyscanmath/hyscan-convolution.c:102-112 | the three nested loops return a candidate 2^a·3^b·5^c at least 2·n_points that is no larger than any other such candidate, or G_MAXINT32 |
| Convolution.ScanPow3 | hyscanmath/hyscan-convolution.c:105-112 | the middle loop keeps the best candidate among all visited so far |
| Convolution.ScanPow5 | hyscanmath/hyscan-convolution.c:106-112 | the inner loop replaces the best only by a nearer candidate at least 2·n_points |
| Convolution.AllVisited | hyscanmath/hyscan-convolution.c:104-106 | after the outer loop the result is at most every candidate at least 2·n_points |
| Convolution.CandidateBounds | hyscanmath/hyscan-convolution.c:104-106 | every candidate is even and lies in [32, 622080] |
| Convolution.OptimalSizeBound | hyscanmath/hyscan-convolution.c:103-118 | the search fails exactly when 2·n_points exceeds 622080; otherwise the size is even and in [32, 622080] |
| Convolution.ConjugateInPlace | hyscanmath/hyscan-convolution.c:147-148 | the loop negates the imaginary part of every sample of the transformed image |
| Convolution.ConjugatedTwice | hyscanmath/hyscan-convolution.c:147-148 | conjugating twice restores the image |
| Convolution.BlockCountIsCeiling | hyscanmath/hyscan-convolution.c:192-195 | n_fft blocks of half_size cover n_points, one block fewer does not, and n_fft is 0 only for no points |
| Convolution.WindowInside | hyscanmath/hyscan-convolution.c:208-228 | every forward window of fft_size samples starts below n_points and lies in the copied-and-zeroed prefix [0, (n_fft+1)·half). That prefix fits the n_fft·fft_size capacity, and 1 <= used_size <= half |
| Convolution.BlocksDisjoint | hyscanmath/hyscan-convolution.c:236-237 | every write-back range lies in [0, n_points), and position p is written only by block p / half |
| Convolution.BlocksCover | hyscanmath/hyscan-convolution.c:236-237 | every position of [0, n_points) is written by block p / half |
| Convolution.SampleBlock | hyscanmath/hyscan-convolution.c:264-267 | position p < n_points lies in the write-back range of block p / half |
| Convolution.PaddedStartsWithData | hyscanmath/hyscan-convolution.c:207-215 | the input buffer starts with the data and continues with at least half_size zeros |
| Convolution.CopyAndPad | hyscanmath/hyscan-convolution.c:207-215 | after the memcpy and memset the first (n_fft+1)·half samples are the data followed by zeros |
| Convolution.ForwardBlocks | hyscanmath/hyscan-convolution.c:217-228 | block i's spectrum, the transform of the window at i·half, lands at i·fft_size for every block |
| Convolution.ForwardBlock | hyscanmath/hyscan-convolution.c:221-228 | one forward iteration adds block i to the stored spectra and keeps the earlier blocks |
| Convolution.StoredAfterCopy | hyscanmath/hyscan-convolution.c:223-227 | copying block i's spectrum to i·fft_size adds it to the spectra already stored |
| Convolution.FilterOne | hyscanmath/hyscan-convolution.c:236-262 | the filtered block i lands in the input buffer at i·fft_size |
| Convolution.WriteBackOne | hyscanmath/hyscan-convolution.c:264-267 | the memcpy extends the finished prefix of data by the block's used samples and keeps the rest |
| Convolution.FilterBlocks | hyscanmath/hyscan-convolution.c:230-268 | after the filter loop data is the convolved buffer: sample p comes from block p / half at offset p mod half |
| Convolution.ConvolvedBlock | hyscanmath/hyscan-convolution.c:264-267 | the range block i writes back is the first used_size samples of its filtered block |
| Convolution.Convolver.constructor | hyscanmath/hyscan-convolution.c:67-72 | a new object has no kernel, size 0 and no buffers |
| Convolution.Convolver.SetImage | hyscanmath/hyscan-convolution.c:74-158 | it always drops the kernel and sets the size to 2 first. A null image succeeds with no kernel, and a failed search fails with no kernel. Otherwise the size is the least candidate at least 2·n_points and the kernel is the prepared, zero-padded image. The buffers are kept |
| Convolution.Convolver.Convolve | hyscanmath/hyscan-convolution.c:169-271 | without a kernel it fails and leaves data and capacity alone. Otherwise capacity becomes max(old, n_fft·fft_size) and data becomes the overlap-add convolution |
| Beamforming.CheckOffsets | hyscanmath/hyscan-beamforming.c:274-282 | the loop answers whether the first count offsets lie in [-1, 1] |
| Beamforming.PhaseCentre | hyscanmath/hyscan-beamforming.c:312-323 | the loop returns the sum and count of the offsets in the sub-array (groups 1 and 3, or 2 and 3) |
| Beamforming.PhaseCentreWithinMembers | hyscanmath/hyscan-beamforming.c:313-348 | a phase centre, the mean offset of its sub-array, lies between the smallest and the largest member offset |
| Beamforming.ClampedBeamCount | hyscanmath/hyscan-beamforming.c:358-359 | n_beams lies in [n_channels, 1024]; it is the raw count when that already lies there, and otherwise the nearer bound |
| Beamforming.AngleGrid | hyscanmath/hyscan-beamforming.c:365-368 | beam 0 is at -fov/2 and the last at +fov/2. Neighbours differ by fov/(n_beams-1), so the grid strictly increases for a positive fov |
| Beamforming.FillAngles | hyscanmath/hyscan-beamforming.c:362-368 | the loop stores BeamAngle for every beam |
| Beamforming.KernelIndexBijective | hyscanmath/hyscan-beamforming.c:501 | channel·n_beams + beam maps the channel-beam pairs one-to-one onto [0, n_channels·n_beams) |
| Beamforming.StoreConvolve | hyscanmath/hyscan-beamforming.c:580-581 | convolving succeeds exactly when a kernel is stored at the index; a failure leaves the data unchanged, and the length is always kept |
| Beamforming.FormBeam | hyscanmath/hyscan-beamforming.c:556-590 | the channel loop leaves the beam holding the sum of the convolved channels, with channel 1 negated first, and keeps each channel's convolved copy |
| Beamforming.FormBeams | hyscanmath/hyscan-beamforming.c:555-590 | every beam and every channel's copy per beam |
| Beamforming.StrongestBeam | hyscanmath/hyscan-beamforming.c:596-619 | the scan over beams returns FirstMax of the amplitudes and that beam's amplitude |
| Beamforming.FirstMaxIsFirst | hyscanmath/hyscan-beamforming.c:608-618 | the strict-greater scan settles on the lowest index of a greatest amplitude |
| Beamforming.CoarseScan | hyscanmath/hyscan-beamforming.c:592-622 | for every range sample, the strongest beam |
| Beamforming.SubArraySums | hyscanmath/hyscan-beamforming.c:635-654 | the sum of the first sub-array's samples and the conjugated sum of the second's, under the shared group rule |
| Beamforming.RefineSample | hyscanmath/hyscan-beamforming.c:625-663 | the DOA record of one sample: the refined angle of its strongest beam, range (p+1)·step, and that beam's amplitude |
| Beamforming.EstimateDoa | hyscanmath/hyscan-beamforming.c:555-663 | one DOA record per range sample, each as DoaAt states |
| Beamforming.KernelAtPair | hyscanmath/hyscan-beamforming.c:475-503 | the kernel registered at channel·n_beams + beam is that channel's and beam's weights |
| Beamforming.AcceptedBelowMeans | hyscanmath/hyscan-beamforming.c:500-505 | AcceptedBelow holds exactly when every kernel below the index was accepted |
| Beamforming.FirstRejectedIsFirst | hyscanmath/hyscan-beamforming.c:500-509 | FirstRejected is exactly the first refused index (or the pair count): every earlier kernel was accepted and the one at it was not |
| Beamforming.RegisteredContents | hyscanmath/hyscan-beamforming.c:500-503 | with nothing registered the store is as it was; once index 0 is registered it holds exactly the new kernels, one at every registered index and none elsewhere |
| Beamforming.RegisterBeam | hyscanmath/hyscan-beamforming.c:475-505 | one beam's kernel is handed to the store at channel·n_beams + beam |
| Beamforming.RegisterChannel | hyscanmath/hyscan-beamforming.c:458-507 | a channel's beams are registered in order, stopping at the first refusal |
| Beamforming.RegisterKernels | hyscanmath/hyscan-beamforming.c:458-509 | succeeds exactly when every kernel is accepted; the store then holds the kernels registered before the first refusal, an index-0 write having dropped every older one |
| Beamforming.ReallocServes | hyscanmath/hyscan-beamforming.c:144-170 | while the buffers hold the recorded maximum, a request is served, the maximum never shrinks and the two stay equal |
| Beamforming.ReallocServesAll | hyscanmath/hyscan-beamforming.c:144-170 | from buffers holding the recorded maximum, every run of requests is served |
| Beamforming.StaleMaximumLeavesBuffersEmpty | hyscanmath/hyscan-beamforming.c:152-153 | after free_buffers as written, any request of 1 to max_n_points points skips the regrowth although the buffers hold no points, so that request is not served |
| Beamforming.ReleaseRestoresInvariant | hyscanmath/hyscan-beamforming.c:172-204 | after the corrected release every later run of requests is served |
| Beamforming.StaleMaximumExample | hyscanmath/hyscan-beamforming.c:144-204 | through the object: configure, get_doa of 100 points and configure again leave max_n_points at 100 with buffers holding no points, so get_doa of 50 skips the regrowth |
| Beamforming.CheckedStaleMaximumExample | hyscanmath/hyscan-beamforming.c:144-204 | with the corrected configuration the same calls reset the maximum, and get_doa of 50 regrows the buffers to 50 points |
| Beamforming.Beamformer.constructor | hyscanmath/hyscan-beamforming.c:120-128 | a new object has no channels, no beams, no kernels and no buffers |
| Beamforming.Beamformer.Clear | hyscanmath/hyscan-beamforming.c:284-286 | free_buffers drops the arrays and the buffers and zeroes n_channels. As written it keeps max_n_points; with the reset the corrected path uses, it zeroes it. The null image at index 0 drops every kernel. The other parameters are kept |
| Beamforming.Beamformer.Assign | hyscanmath/hyscan-beamforming.c:288-299 | after the clear, the parameters and the first n_channels offsets and groups are stored, and distance_step = c / rate / 2; no kernels remain and the buffers hold no points |
| Beamforming.Beamformer.Finish | hyscanmath/hyscan-beamforming.c:350-378 | the base is the difference of the phase centres. The beam count is clamped, every beam angle is laid out and the buffer arrays exist; max_n_points is kept |
| Beamforming.Beamformer.Configure | hyscanmath/hyscan-beamforming.c:235-381 | as written. Bad parameters, or an offset off ±1 m among the PREVIOUS channel count, fail with nothing changed. Otherwise the object is cleared and assigned, with max_n_points kept, every kernel dropped and buffers holding no points. It succeeds exactly when both sub-arrays are non-empty. A failure there leaves it half assigned: the new channel count, offsets, groups, rate, frequencies, field of view, sound velocity and distance step, with the old base and beam count, and no beam arrays |
| Beamforming.Beamformer.ConfigureChecked | hyscanmath/hyscan-beamforming.c:261-381 | corrected: succeeds exactly when the parameters, the new offsets and both sub-arrays are valid; a failure changes nothing, and a success resets max_n_points with the buffers |
| Beamforming.Beamformer.ReallocBuffers | hyscanmath/hyscan-beamforming.c:144-170 | grows the buffers only for a request beyond the recorded maximum; the maximum then covers the request, and the buffers hold it whenever they held the maximum before |
| Beamforming.Beamformer.SetSignals | hyscanmath/hyscan-beamforming.c:395-517 | the size is 256 without images, and otherwise 2·n_points rounded to the table. It succeeds exactly when every kernel is accepted, and the store holds the kernels registered before the first refusal |
| Beamforming.Beamformer.GetDoa | hyscanmath/hyscan-beamforming.c:532-666 | fails with nothing changed when no channels are configured; otherwise regrows the buffers and returns DoaAt for every range sample |
| Beamforming.UncheckedOffsetExample | hyscanmath/hyscan-beamforming.c:274-282 | a first configuration with an antenna 5 m off centre is accepted |
| Beamforming.CheckedOffsetExample | hyscanmath/hyscan-beamforming.c:274-282 | the corrected configuration refuses it |
| Beamforming.EmptyGroupExample | hyscanmath/hyscan-beamforming.c:284-347 | a reconfiguration with an empty second sub-array fails, leaving one channel and no buffers |
| Beamforming.CheckedEmptyGroupExample | hyscanmath/hyscan-beamforming.c:284-347 | the corrected configuration fails on the same call and keeps the working configuration |
| MathFunctions.Average | hyscanmath/hyscan-math-functions.c:69-122 | a rejected range gives (0, 0); a float buffer gives im = 0 |
| MathFunctions.Minimum | hyscanmath/hyscan-math-functions.c:275-336 | a rejected range gives (0, 0); a float buffer gives im = 0 |
| MathFunctions.Maximum | hyscanmath/hyscan-math-functions.c:351-411 | a rejected range gives (0, 0); a float buffer gives im = 0 |
| MathFunctions.Avr | hyscanmath/hyscan-math-functions.c:69-122 | the empty-buffer exit, the range check and the accumulator loop return Average |
| MathFunctions.Min | hyscanmath/hyscan-math-functions.c:275-336 | the running-minimum loop returns Minimum |
| MathFunctions.Max | hyscanmath/hyscan-math-functions.c:351-411 | the running-maximum loop returns Maximum |
| MathFunctions.RangeValidMeans | hyscanmath/hyscan-math-functions.c:94-95 | the range check passes exactly for 0 <= min < max <= n, so never on an empty buffer |
| MathFunctions.LeastIsMinimum | hyscanmath/hyscan-math-functions.c:302-306 | the running minimum is a sample of the range and no sample there is smaller |
| MathFunctions.GreatestIsMaximum | hyscanmath/hyscan-math-functions.c:377-381 | the running maximum is a sample of the range and no sample there is larger |
| MathFunctions.SumBetween | hyscanmath/hyscan-math-functions.c:97-98 | a sum of samples in [lower, upper] lies between length·lower and length·upper |
| MathFunctions.SumOfConstant | hyscanmath/hyscan-math-functions.c:97-98 | the sum of a constant range is its length times the constant |
| MathFunctions.MeanBetween | hyscanmath/hyscan-math-functions.c:97-100 | the mean of a range lies between its least and its greatest sample |
| MathFunctions.AverageOfConstant | hyscanmath/hyscan-math-functions.c:91-101 | over a range of float samples all equal to x, avr is (x, 0) |
| MathFunctions.AverageBetween | hyscanmath/hyscan-math-functions.c:69-122 | min <= avr <= max in each component, on every buffer and range |
| MathFunctions.ComplexMinimumComponentwise | hyscanmath/hyscan-math-functions.c:319-332 | the complex minimum's re and im are each the least of their component, each attained by some sample |
| MathFunctions.ComplexMaximumComponentwise | hyscanmath/hyscan-math-functions.c:394-407 | the complex maximum's re and im are each the greatest of their component, each attained by some sample |
| MathFunctions.MinimumNeedNotBeASample | hyscanmath/hyscan-math-functions.c:319-332 | the minimum of (0, 1) and (1, 0) is (0, 0), which is neither sample |
| Stats.FitAngle | hyscanmath/hyscan-stats.c:40-50 | the angle moves by at most one turn. Every angle of [-360, 720) lands in [0, 360), and angles already there are kept |
| Stats.FitAngleIdempotent | hyscanmath/hyscan-stats.c:40-50 | on [-360, 720), wrapping twice is wrapping once |
| Stats.FitAngleOneStep | hyscanmath/hyscan-stats.c:43-47 | the wrap is a single step: -400 becomes -40 |
| Stats.AvgCircular | hyscanmath/hyscan-stats.c:66-67 | no values give 0 |
| Stats.AvgCircularWeighted | hyscanmath/hyscan-stats.c:97-98 | no values give 0 |
| Stats.VarCircular | hyscanmath/hyscan-stats.c:129-130 | no values give 0 |
| Stats.AvgCircularLoop | hyscanmath/hyscan-stats.c:59-79 | the loop of sine and cosine sums returns AvgCircular |
| Stats.AvgCircularWeightedLoop | hyscanmath/hyscan-stats.c:89-110 | the weighted loop returns AvgCircularWeighted |
| Stats.VarCircularLoop | hyscanmath/hyscan-stats.c:120-142 | the loop of squared folded differences returns VarCircular |
| Stats.AvgCircularInRange | hyscanmath/hyscan-stats.c:78 | with an arctangent in [-pi, pi] the circular mean lies in [0, 360) |
| Stats.UnitWeightsSum | hyscanmath/hyscan-stats.c:100-107 | with all weights 1 the weighted sums are the plain ones |
| Stats.UnitWeightsAverage | hyscanmath/hyscan-stats.c:89-110 | with all weights 1 the weighted mean is the plain mean |
| Stats.Fold | hyscanmath/hyscan-stats.c:134-136 | the folded difference lies in [0, 180] whenever the values are within 360 of each other, and is |v - avg| within 180 |
| Stats.FoldSymmetric | hyscanmath/hyscan-stats.c:134-136 | the fold does not depend on the order of value and mean |
| Stats.SquareSumNonNegative | hyscanmath/hyscan-stats.c:132-139 | the sum of squared folded differences is never negative |
| Stats.MeanSquareNonNegative | hyscanmath/hyscan-stats.c:141 | the mean square under the root is never negative |
| Stats.SquareSumOfZeros | hyscanmath/hyscan-stats.c:132-139 | differences that all fold to 0 sum to 0 |
| Stats.MeanSquareZero | hyscanmath/hyscan-stats.c:132-141 | when every value equals avg the mean square is 0 |
| EchoSvp.StepTime | hyscanmath/hyscan-echo-svp.c:60-68 | with time left, a step spends between 0 and the time left |
| EchoSvp.StepTimeMeaning | hyscanmath/hyscan-echo-svp.c:60-68 | a step fails exactly when the layer lies on the wrong side (st < 0), and otherwise spends MIN (st, time) |
| EchoSvp.Enter | hyscanmath/hyscan-echo-svp.c:59-71 | entering a layer takes on half its velocity and leaves a remaining time between 0 and the time before |
| EchoSvp.Depth | hyscanmath/hyscan-echo-svp.c:47-79 | a negative time gives -1, and an empty profile gives 750·time |
| EchoSvp.Calc | hyscanmath/hyscan-echo-svp.c:47-79 | the loop returns Depth and enters at most |svp| layers |
| EchoSvp.EnterLayer | hyscanmath/hyscan-echo-svp.c:59-71 | one loop iteration succeeds exactly when Enter does and then yields Enter's state |
| EchoSvp.WalkStep | hyscanmath/hyscan-echo-svp.c:57-73 | with time left, the walk continues from the entered layer's state |
| EchoSvp.WalkStepAt | hyscanmath/hyscan-echo-svp.c:57-73 | the same, for the layers from index k on |
| EchoSvp.WalkErrorAt | hyscanmath/hyscan-echo-svp.c:62-66 | a layer that cannot be entered ends the walk with -1 |
| EchoSvp.LayerAboveIsError | hyscanmath/hyscan-echo-svp.c:60-66 | a layer above the current depth, met while descending with time left, gives -1 |
| EchoSvp.StepLandsOnLayer | hyscanmath/hyscan-echo-svp.c:60-69 | a step that reaches its layer at a positive velocity ends exactly at the layer's depth |
| EchoSvp.WalkNeverRises | hyscanmath/hyscan-echo-svp.c:68-76 | with non-negative velocities the walk fails or ends no higher than it started |
| EchoSvp.DepthNonNegative | hyscanmath/hyscan-echo-svp.c:69-76 | with non-negative velocities a successful depth is never negative |
| EchoSvp.SpentTimeStops | hyscanmath/hyscan-echo-svp.c:57 | once the time is spent the walk ends at the current depth, whatever layers remain |

## Left out

- Floating point: floats and doubles are modelled as `real`, so there is no
  rounding, overflow to infinity or NaN. gfloat and gdouble are not told apart.
- The Fourier transforms of pffft (`pffft_new_setup`, `pffft_transform[_ordered]`,
  `pffft_zreorder`, `pffft_zconvolve_accumulate`) are foreign function
  parameters; their library is not part of this model. The failure of
  `pffft_new_setup` (hyscan-fft.c:235-236, hyscan-convolution.c:126-131) is not
  modelled: plans are always built.
- Fft.Engine.TransformReal, Fft.Engine.TransformComplex, Fft.Engine.TransformConstReal,
  Fft.Engine.TransformConstComplex: the result is the transform before the
  1/n_points scaling of `hyscan_fft_scale`, which is left out (floating-point
  scaling only).
- Fft.Transposition: `index0` is a parameter. Its computation from the clamped
  heterodyne with `fmod` and a cast to guint32 (hyscan-fft.c:337-338) is left
  out; the cast is well defined only for heterodyne <= frequency0. The
  overlapping `memcpy` at line 345 is modelled as the forward copy it performs
  in practice.
- Fft.Engine.TransformReal, Fft.Engine.TransformComplex: the caller's buffer is
  required to hold fft_size samples, the size the transform reads and writes.
- Convolution.Convolver.Convolve: on an empty buffer it requires capacity for
  half a block. In the source, the memset at hyscan-convolution.c:213-215
  writes half_size samples and has no buffer on a fresh object. It also
  requires n_fft·fft_size to fit in gint32.
- Convolution.Convolver.SetImage: requires 2·n_points to fit in gint32. The
  scale factor `fft_scale` (line 123) and the OpenMP parallel loops are left
  out; the blocks are independent and are modelled sequentially.
- Convolution.Convolver.Convolve: the scratch buffers' contents after the call
  are not stated, only the data written back.
- The header hyscan-convolution.h declares an indexed API (`set_image_td/fd`,
  a five-argument `convolve`) that hyscan-convolution.c does not define. The
  model follows the .c. Beamforming uses the indexed API through an abstract
  kernel store (`StoreConvolve`, `Store`, `AcceptFn`). Its implementation is not
  part of this model, so the store follows that API's documented behaviour.
  An image at index 0 fixes the transform length and drops every other
  kernel, and a null image at index 0 drops them all. A refused image leaves
  the store as it was. The failure result of convolve
  at hyscan-beamforming.c:580, which the source ignores, leaves the data
  unchanged.
- Beamforming: the trigonometry is foreign and becomes parameters:
  - the wavenumbers and phase ramps of `set_signals` (lines 427-498), whose
    kernels come from `WeightsFn`;
  - the `asin`/`ceil` beam-count formula (lines 353-356), whose raw count is
    an input, together with the min/max offset loop (lines 301-310) that
    feeds only that formula;
  - the `atan2`/`asin` refinement (lines 656-662), which is `RefineFn`.
- Beamforming.Beamformer.GetDoa: the amplitude is the squared magnitude rather
  than its `sqrtf`; the square root is monotone, so the chosen beam is the
  same. The DOA records are returned as a sequence, and the ach/beams scratch
  contents are not kept in the object. The beam index, stored as `beam + 0.1`
  and truncated back (lines 616, 632), is a `nat`.
- Beamforming.Beamformer.GetDoa: requires the beam buffers to exist whenever
  channels are configured. After the failed configuration of the second
  finding below, the source would write through missing buffers.
- Beamforming.Beamformer.GetDoa: requires the regrowth to leave buffers holding
  the n points. After the stale maximum of the third finding below, the source
  writes through NULL beam buffers; the model does not go on past that.
- Beamforming.Beamformer.Configure: requires the new offsets array to hold at
  least the previous channel count. The source's loop at lines 275-282 reads
  that many entries (the first finding below) and reads past a shorter array,
  which the model does not represent.
- Beamforming.Beamformer.SetSignals: requires the beam buffers to exist whenever
  channels are configured. After the failed configuration of the second
  finding below, the source reads the missing `beams_a_sin` at line 480.
- Beamforming.Beamformer.SetSignals: with signal images it requires
  2·n_points <= 1048576. Beyond that the source's transform size is 0 and
  `hyscan_fft_alloc` returns NULL, which it then writes through.
- Beamforming.BeamAngle: with a single beam the source divides 0 by 0 (a NaN
  angle); the model gives -fov/2.
- MathFunctions: only float and complex-float buffers are modelled. The source
  treats every non-float data type as complex.
- The range reductions `avr_square`, `avr_square_dev` and `phase_diff` rest on
  `pow`, `sqrt` and `atan2` numerics and are left out.
- Stats: sin, cos, atan2 and sqrt are parameters. G_PI is its double's
  decimal value.
- EchoSvp.Calc: the `isfinite (time)` test (line 54) has no counterpart, since
  reals are finite. The model follows the two-argument definition in
  hyscan-echo-svp.c, not the three-argument declaration in
  hyscan-echo-svp.h:38-40.
- hyscan-ahrs.c, hyscan-ahrs-mahony.c, hyscan-signal.c and
  hyscan-inter2-doa.c are not part of this model. They are a float
  quaternion integrator, waveform synthesis and trigonometric angle
  estimation.

## Findings

| source | as written | input that shows it | evidently intended | confidence | as-written member | corrected member |
|---|---|---|---|---|---|---|
| hyscanmath/hyscan-beamforming.c:274-282 | the ±1 m offset loop runs over the previous configuration's `priv->n_channels`. The first configuration checks no offset; later ones check the wrong count, and read past a shorter new array | `configure` of one channel with offset 5.0 and group 3 on a new object returns TRUE | check the n_channels offsets being configured | high; not executed | Beamforming.Beamformer.Configure, Beamforming.UncheckedOffsetExample | Beamforming.Beamformer.ConfigureChecked, Beamforming.CheckedOffsetExample |
| hyscanmath/hyscan-beamforming.c:284-347 | the empty sub-array checks come after the old configuration was freed and the new channel count stored | `configure` with group 3, then `configure` with group 1: the second returns FALSE, leaving n_channels = 1 and no beam buffers, so a following `get_doa` passes its n_channels check | make every check before the clear | high; not executed | Beamforming.Beamformer.Configure, Beamforming.EmptyGroupExample | Beamforming.Beamformer.ConfigureChecked, Beamforming.CheckedEmptyGroupExample |
| hyscanmath/hyscan-beamforming.c:152-153, 172-204 | `free_buffers` frees every beam buffer but keeps `max_n_points`, so `realloc_buffers` skips the regrowth for any request no larger than an earlier one | `get_doa` of 100 points, `configure` again, `get_doa` of 50 points: the new beam pointers are NULL, `realloc_buffers` returns early and the memset at line 560 writes through NULL | reset `max_n_points` with the buffers | high; not executed | Beamforming.Beamformer.Configure, Beamforming.StaleMaximumLeavesBuffersEmpty, Beamforming.StaleMaximumExample | Beamforming.Beamformer.ConfigureChecked, Beamforming.ReleaseRestoresInvariant, Beamforming.CheckedStaleMaximumExample |
