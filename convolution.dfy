/** The overlap-add block convolution of hyscan-convolution.c: choosing the
    transform size for a kernel image, and convolving a buffer block by block.
    The transforms inside a block (pffft) are foreign and arrive as function
    parameters; what is modelled is where every block reads and writes. */
module Convolution {
  import opened Common

  const MaxInt32: int := 0x7FFF_FFFF

  /** The factors the size search combines: 2^a in [32, 512], 3^b up to 243,
      5^c in {1, 5}. */
  predicate IsPow2(i: int) { i == 32 || i == 64 || i == 128 || i == 256 || i == 512 }
  predicate IsPow3(j: int) { j == 1 || j == 3 || j == 9 || j == 27 || j == 81 || j == 243 }
  predicate IsPow5(k: int) { k == 1 || k == 5 }

  function Product(i: int, j: int, k: int): int
  {
    i * j * k
  }

  /** A transform size the search may choose. */
  ghost predicate IsCandidate(v: int)
  {
    exists i, j, k :: IsPow2(i) && IsPow3(j) && IsPow5(k) && v == Product(i, j, k)
  }

  function Abs(x: int): int
  {
    if x < 0 then -x else x
  }

  /** v is at most every candidate that is at least convSize. */
  ghost predicate LeastAtLeast(v: int, convSize: int)
  {
    forall i, j, k :: IsPow2(i) && IsPow3(j) && IsPow5(k) && Product(i, j, k) >= convSize ==> v <= Product(i, j, k)
  }

  /** i' j' k' comes before i j k in the order the three loops visit them. */
  predicate Before(i': int, j': int, k': int, i: int, j: int, k: int)
  {
    i' < i || (i' == i && (j' < j || (j' == j && k' < k)))
  }

  /** v is at most every candidate at least convSize visited before i j k. */
  ghost predicate LeastSoFar(v: int, convSize: int, i: int, j: int, k: int)
  {
    forall i', j', k' ::
      (IsPow2(i') && IsPow3(j') && IsPow5(k') && Before(i', j', k', i, j, k) && Product(i', j', k') >= convSize)
      ==> v <= Product(i', j', k')
  }

  /** One inner iteration: visiting i j k keeps LeastSoFar. */
  lemma {:induction false} VisitStep(v: int, v': int, convSize: int, i: int, j: int, k: int)
    requires LeastSoFar(v, convSize, i, j, k)
    requires IsPow5(k)
    requires v' <= v
    requires Product(i, j, k) >= convSize ==> v' <= Product(i, j, k)
    ensures LeastSoFar(v', convSize, i, j, k * 5)
  {
    forall i', j', k' | IsPow2(i') && IsPow3(j') && IsPow5(k') && Before(i', j', k', i, j, k * 5) && Product(i', j', k') >= convSize
      ensures v' <= Product(i', j', k')
    {
      if !Before(i', j', k', i, j, k) {
        assert i' == i && j' == j && k' == k;
      }
    }
  }

  /** Leaving the innermost loop: all of j is visited. */
  lemma {:induction false} NextJ(v: int, convSize: int, i: int, j: int)
    requires LeastSoFar(v, convSize, i, j, 25)
    requires IsPow3(j)
    ensures LeastSoFar(v, convSize, i, j * 3, 0)
  {
    forall i', j', k' | IsPow2(i') && IsPow3(j') && IsPow5(k') && Before(i', j', k', i, j * 3, 0) && Product(i', j', k') >= convSize
      ensures v <= Product(i', j', k')
    {
      assert Before(i', j', k', i, j, 25);
    }
  }

  /** Leaving the middle loop: all of i is visited. */
  lemma {:induction false} NextI(v: int, convSize: int, i: int)
    requires LeastSoFar(v, convSize, i, 729, 0)
    requires IsPow2(i)
    ensures LeastSoFar(v, convSize, i * 2, 0, 0)
  {
    forall i', j', k' | IsPow2(i') && IsPow3(j') && IsPow5(k') && Before(i', j', k', i * 2, 0, 0) && Product(i', j', k') >= convSize
      ensures v <= Product(i', j', k')
    {
      assert Before(i', j', k', i, 729, 0);
    }
  }

  /** After the outer loop every candidate is visited. */
  lemma {:induction false} AllVisited(v: int, convSize: int)
    requires LeastSoFar(v, convSize, 1024, 0, 0)
    ensures LeastAtLeast(v, convSize)
  {
    forall i, j, k | IsPow2(i) && IsPow3(j) && IsPow5(k) && Product(i, j, k) >= convSize
      ensures v <= Product(i, j, k)
    {
      assert Before(i, j, k, 1024, 0, 0);
    }
  }

  /** v is MaxInt32, or a candidate at least convSize. */
  ghost predicate Chosen(v: int, convSize: int)
  {
    v <= MaxInt32 && (v == MaxInt32 || (v >= convSize && IsCandidate(v)))
  }

  /** The size search of `hyscan_convolution_set_image`: the least candidate
      that is at least convSize, or MaxInt32 when every candidate is smaller. */
  method OptimalSize(convSize: int) returns (optSize: int)
    requires 0 <= convSize < MaxInt32
    ensures optSize != MaxInt32 ==> optSize >= convSize && IsCandidate(optSize)
    ensures LeastAtLeast(optSize, convSize)
  {
    optSize := MaxInt32;
    var i := 32;
    while i <= 512
      invariant IsPow2(i) || i == 1024
      invariant Chosen(optSize, convSize)
      invariant LeastSoFar(optSize, convSize, i, 0, 0)
    {
      optSize := ScanPow3(convSize, i, optSize);
      NextI(optSize, convSize, i);
      i := i * 2;
    }
    AllVisited(optSize, convSize);
  }

  /** The middle loop of the size search, over the powers of 3. */
  method ScanPow3(convSize: int, i: int, v: int) returns (optSize: int)
    requires 0 <= convSize < MaxInt32 && IsPow2(i)
    requires Chosen(v, convSize) && LeastSoFar(v, convSize, i, 0, 0)
    ensures Chosen(optSize, convSize) && LeastSoFar(optSize, convSize, i, 729, 0)
  {
    optSize := v;
    var j := 1;
    while j <= 243
      invariant IsPow3(j) || j == 729
      invariant Chosen(optSize, convSize)
      invariant LeastSoFar(optSize, convSize, i, j, 0)
    {
      optSize := ScanPow5(convSize, i, j, optSize);
      NextJ(optSize, convSize, i, j);
      j := j * 3;
    }
  }

  /** The inner loop of the size search, over the powers of 5: a candidate at
      least convSize and nearer to it than the best so far replaces it. */
  method ScanPow5(convSize: int, i: int, j: int, v: int) returns (optSize: int)
    requires 0 <= convSize < MaxInt32 && IsPow2(i) && IsPow3(j)
    requires Chosen(v, convSize) && LeastSoFar(v, convSize, i, j, 0)
    ensures Chosen(optSize, convSize) && LeastSoFar(optSize, convSize, i, j, 25)
  {
    optSize := v;
    var k := 1;
    while k <= 5
      invariant IsPow5(k) || k == 25
      invariant Chosen(optSize, convSize)
      invariant LeastSoFar(optSize, convSize, i, j, k)
    {
      ghost var before := optSize;
      var candidate := Product(i, j, k);
      if candidate >= convSize && Abs(candidate - convSize) < Abs(optSize - convSize) {
        CandidateChosen(convSize, i, j, k);
        optSize := candidate;
      }
      VisitStep(before, optSize, convSize, i, j, k);
      k := k * 5;
    }
  }

  /** A candidate at least convSize may be chosen. */
  lemma CandidateChosen(convSize: int, i: int, j: int, k: int)
    requires IsPow2(i) && IsPow3(j) && IsPow5(k) && Product(i, j, k) >= convSize
    ensures Chosen(Product(i, j, k), convSize)
  {
    CandidateBounds(i, j, k);
  }

  /** Every candidate is even and lies in [32, 512 * 243 * 5]. */
  lemma CandidateBounds(i: int, j: int, k: int)
    requires IsPow2(i) && IsPow3(j) && IsPow5(k)
    ensures 32 <= Product(i, j, k) <= 622080
    ensures Product(i, j, k) % 2 == 0
  {
    var ij := i * j;
    assert Product(i, j, k) == ij * k;
    MulLe(32, i, j);
    MulLe(i, 512, j);
    MulLe(32, ij, k);
    MulLe(ij, 124416, k);
    var h := i / 2;
    assert ij == 2 * (h * j);
    assert ij * k == 2 * ((h * j) * k);
  }

  /** The largest candidate, 512 * 243 * 5, bounds what can be served; every
      chosen size is even and at least 32. */
  lemma OptimalSizeBound(convSize: int, optSize: int)
    requires 0 <= convSize < MaxInt32
    requires optSize != MaxInt32 ==> optSize >= convSize && IsCandidate(optSize)
    requires LeastAtLeast(optSize, convSize)
    ensures optSize == MaxInt32 <==> convSize > 622080
    ensures optSize != MaxInt32 ==> 32 <= optSize <= 622080 && optSize % 2 == 0
  {
    if convSize <= 622080 {
      assert Product(512, 243, 5) == 622080;
      assert optSize <= 622080;
    }
    if optSize != MaxInt32 {
      var i, j, k :| IsPow2(i) && IsPow3(j) && IsPow5(k) && optSize == Product(i, j, k);
      CandidateBounds(i, j, k);
    }
  }

  /** The block arithmetic of `hyscan_convolution_convolve`. */

  lemma BlockEnd(i: int, n: int, w: int)
    requires 0 <= i < n && 0 <= w
    ensures 0 <= i * w && i * w + w <= n * w
    ensures (i + 1) * w == i * w + w
  {
    MulLe(i + 1, n, w);
    MulLe(0, i, w);
  }

  lemma Twice(i: int, h: int)
    ensures i * (2 * h) == 2 * (i * h)
  {
  }

  /** i * half <= p < (i + 1) * half places p in block i at offset p % half. */
  lemma {:induction false} DivBlock(p: int, i: int, half: int)
    requires half > 0 && 0 <= i && i * half <= p < i * half + half
    ensures p / half == i && p % half == p - i * half
  {
    var q := p / half;
    assert p == q * half + p % half && 0 <= p % half < half;
    if q > i {
      MulLe(i + 1, q, half);
    } else if q < i {
      MulLe(q + 1, i, half);
    }
  }

  /** n_fft: the number of half-size steps needed to cover n samples, the
      ceiling of n / half. */
  function BlockCount(n: nat, half: nat): nat
    requires half > 0
  {
    n / half + if n % half != 0 then 1 else 0
  }

  /** n_fft blocks of half samples cover n, and one block fewer does not. */
  lemma BlockCountIsCeiling(n: nat, half: nat)
    requires half > 0
    ensures n <= BlockCount(n, half) * half
    ensures BlockCount(n, half) == 0 || (BlockCount(n, half) - 1) * half < n
    ensures BlockCount(n, half) == 0 <==> n == 0
  {
    var q := n / half;
    assert n == q * half + n % half;
    if n % half != 0 {
      assert (q + 1) * half == q * half + half;
    }
  }

  /** used_size: how many samples block i writes back, MIN (n - i * half, half). */
  function UsedSize(n: nat, half: nat, i: nat): int
  {
    if n - i * half < half then n - i * half else half
  }

  /** Every forward window [i * half, i * half + 2 * half) of a block i <
      n_fft lies in the copied-and-zeroed prefix [0, (n_fft + 1) * half), and
      that prefix fits in the n_fft * fft_size samples of capacity. */
  lemma {:induction false} WindowInside(n: nat, half: nat, i: nat)
    requires half > 0 && i < BlockCount(n, half)
    ensures i * half + 2 * half <= (BlockCount(n, half) + 1) * half
    ensures (BlockCount(n, half) + 1) * half <= BlockCount(n, half) * (2 * half)
    ensures i * half < n
    ensures 1 <= UsedSize(n, half, i) <= half
  {
    var r := BlockCount(n, half);
    BlockCountIsCeiling(n, half);
    MulLe(i + 2, r + 1, half);
    MulLe(i, r - 1, half);
    MulLe(1, r, half);
  }

  /** Position p lies in the write-back range [i * half, i * half + used_size)
      of block i. */
  predicate InBlock(n: nat, half: nat, i: nat, p: int)
  {
    half > 0 && i < BlockCount(n, half) && i * half <= p < i * half + UsedSize(n, half, i)
  }

  /** Every write-back range lies in [0, n), and only the block p / half
      writes position p: the ranges are pairwise disjoint. */
  lemma {:induction false} BlocksDisjoint(n: nat, half: nat)
    requires half > 0
    ensures forall i: nat, p: int :: InBlock(n, half, i, p) ==> 0 <= p < n && p / half == i
  {
    forall i: nat, p: int | InBlock(n, half, i, p)
      ensures 0 <= p < n && p / half == i
    {
      WindowInside(n, half, i);
      DivBlock(p, i, half);
    }
  }

  /** Every position of [0, n) is written back by block p / half, so the
      ranges cover [0, n). */
  lemma {:induction false} BlocksCover(n: nat, half: nat)
    requires half > 0
    ensures forall p :: 0 <= p < n ==> InBlock(n, half, p / half, p)
  {
    forall p | 0 <= p < n
      ensures InBlock(n, half, p / half, p)
    {
      SampleBlock(n, half, p);
    }
  }

  /** Position p < n lies in the write-back range of block p / half. */
  lemma SampleBlock(n: nat, half: nat, p: int)
    requires half > 0 && 0 <= p < n
    ensures InBlock(n, half, p / half, p)
  {
    var q := p / half;
    assert p == q * half + p % half && 0 <= p % half < half;
    var r := BlockCount(n, half);
    BlockCountIsCeiling(n, half);
    if q >= r {
      MulLe(r, q, half);
      assert false;
    }
  }

  /** A foreign routine over one block (pffft). */
  type Transform = seq<Complex> -> seq<Complex>
  /** The foreign per-block filter: zeroing, pffft_zconvolve_accumulate with
      the kernel, pffft_zreorder and the backward pffft_transform_ordered. */
  type Filter = (seq<Complex>, seq<Complex>) -> seq<Complex>

  /** The input buffer after the copy and the zero padding up to
      (n_fft + 1) * half. */
  function Padded(data: seq<Complex>, half: nat): seq<Complex>
    requires half > 0
  {
    Resize(data, (BlockCount(|data|, half) + 1) * half)
  }

  /** The padded buffer is the input followed by at least half zeros. */
  lemma PaddedStartsWithData(data: seq<Complex>, half: nat)
    requires half > 0
    ensures |data| + half <= |Padded(data, half)|
    ensures Padded(data, half)[..|data|] == data
    ensures forall k :: |data| <= k < |Padded(data, half)| ==> Padded(data, half)[k] == Zero
  {
    BlockCountIsCeiling(|data|, half);
    assert (BlockCount(|data|, half) + 1) * half == BlockCount(|data|, half) * half + half;
    assert Padded(data, half)[..|data|] == data;
  }

  /** The spectrum of block i: the transform of the window at i * half. */
  function BlockSpectrum(data: seq<Complex>, half: nat, forward: Transform, i: nat): (r: seq<Complex>)
    requires half > 0 && i < BlockCount(|data|, half)
    ensures |r| == 2 * half
  {
    WindowInside(|data|, half, i);
    Resize(forward(Padded(data, half)[i * half .. i * half + 2 * half]), 2 * half)
  }

  /** The filtered block i, of which the first used_size samples are kept. */
  function BlockOut(data: seq<Complex>, kernel: seq<Complex>, half: nat, forward: Transform, filter: Filter,
                    i: nat): (r: seq<Complex>)
    requires half > 0 && i < BlockCount(|data|, half)
    ensures |r| == 2 * half
  {
    Resize(filter(BlockSpectrum(data, half, forward, i), kernel), 2 * half)
  }

  /** Sample p of the block p / half that writes it back. */
  function Sample(data: seq<Complex>, kernel: seq<Complex>, half: nat, forward: Transform, filter: Filter,
                  p: nat): Complex
    requires half > 0 && p < |data|
  {
    SampleBlock(|data|, half, p);
    BlockOut(data, kernel, half, forward, filter, p / half)[p % half]
  }

  /** The convolved buffer: sample p is sample p % half of the filtered block
      p / half. */
  function Convolved(data: seq<Complex>, kernel: seq<Complex>, half: nat, forward: Transform, filter: Filter)
    : (r: seq<Complex>)
    requires half > 0
    ensures |r| == |data|
  {
    seq(|data|, p requires 0 <= p < |data| => Sample(data, kernel, half, forward, filter, p))
  }

  /** The samples block i writes back are the first used_size samples of its
      filtered block. */
  lemma ConvolvedBlock(data: seq<Complex>, kernel: seq<Complex>, half: nat, forward: Transform, filter: Filter,
                       i: nat)
    requires half > 0 && i < BlockCount(|data|, half)
    ensures 0 <= i * half && 0 < UsedSize(|data|, half, i) && i * half + UsedSize(|data|, half, i) <= |data|
    ensures Convolved(data, kernel, half, forward, filter)[i * half .. i * half + UsedSize(|data|, half, i)]
      == BlockOut(data, kernel, half, forward, filter, i)[..UsedSize(|data|, half, i)]
  {
    var lo, used := i * half, UsedSize(|data|, half, i);
    WindowInside(|data|, half, i);
    MulLe(0, i, half);
    var c := Convolved(data, kernel, half, forward, filter);
    var out := BlockOut(data, kernel, half, forward, filter, i);
    forall k | 0 <= k < used
      ensures c[lo + k] == out[k]
    {
      ConvolvedSample(data, kernel, half, forward, filter, i, k);
    }
    PointwiseSlice(c, lo, out, used);
  }

  /** Sample k of the range block i writes back is sample k of its filtered
      block. */
  lemma ConvolvedSample(data: seq<Complex>, kernel: seq<Complex>, half: nat, forward: Transform, filter: Filter,
                        i: nat, k: nat)
    requires half > 0 && i < BlockCount(|data|, half) && k < UsedSize(|data|, half, i)
    ensures 0 <= i * half + k < |data|
    ensures Convolved(data, kernel, half, forward, filter)[i * half + k]
      == BlockOut(data, kernel, half, forward, filter, i)[k]
  {
    WindowInside(|data|, half, i);
    MulLe(0, i, half);
    DivBlock(i * half + k, i, half);
  }

  /** Sequences that agree sample by sample agree as slices. */
  lemma PointwiseSlice(c: seq<Complex>, lo: nat, s: seq<Complex>, used: nat)
    requires lo + used <= |c| && used <= |s|
    requires forall k :: 0 <= k < used ==> c[lo + k] == s[k]
    ensures c[lo .. lo + used] == s[..used]
  {
  }

  /** min (i * half, n): how far the write-back of blocks 0 .. i-1 reaches. */
  function Written(n: nat, half: nat, i: nat): nat
  {
    if i * half < n then i * half else n
  }

  /** Every sample with its imaginary part negated. */
  function Conjugated(s: seq<Complex>): (r: seq<Complex>)
    ensures |r| == |s|
  {
    seq(|s|, i requires 0 <= i < |s| => Conj(s[i]))
  }

  /** Conjugating twice gives the samples back. */
  lemma ConjugatedTwice(s: seq<Complex>)
    ensures Conjugated(Conjugated(s)) == s
  {
  }

  /** The loop of `hyscan_convolution_set_image` that conjugates the
      transformed image in place. */
  method ConjugateInPlace(a: array<Complex>)
    modifies a
    ensures a[..] == Conjugated(old(a[..]))
  {
    var i := 0;
    while i < a.Length
      invariant 0 <= i <= a.Length
      invariant forall k :: 0 <= k < i ==> a[k] == Conj(old(a[k]))
      invariant forall k :: i <= k < a.Length ==> a[k] == old(a[k])
    {
      a[i] := Complex(a[i].re, -a[i].im);
      i := i + 1;
    }
  }

  /** The stored kernel: the image zero-padded to size, transformed in order,
      conjugated and put back into pffft's internal order. */
  function Kernel(image: seq<Complex>, size: nat, forwardOrdered: Transform, reorder: Transform): (r: seq<Complex>)
    ensures |r| == size
  {
    Resize(reorder(Conjugated(Resize(forwardOrdered(Resize(image, size)), size))), size)
  }

  /** memcpy of src into dst at offset; the rest of dst is kept. */
  method CopyInto(dst: array<Complex>, offset: nat, src: seq<Complex>)
    requires offset + |src| <= dst.Length
    modifies dst
    ensures dst[..] == old(dst[..offset]) + src + old(dst[offset + |src|..])
  {
    forall i | offset <= i < offset + |src| {
      dst[i] := src[i - offset];
    }
  }

  function Max(a: int, b: int): int
  {
    if a < b then b else a
  }

  /** The memcpy and memset of `hyscan_convolution_convolve`: the input
      followed by zeros up to (n_fft + 1) * half. */
  method CopyAndPad(ib: array<Complex>, data: array<Complex>, half: nat)
    requires half > 0 && ib != data
    requires data.Length > 0 || half <= ib.Length
    requires BlockCount(data.Length, half) * (2 * half) <= ib.Length
    modifies ib
    ensures (BlockCount(data.Length, half) + 1) * half <= ib.Length
    ensures ib[..(BlockCount(data.Length, half) + 1) * half] == Padded(data[..], half)
  {
    var n := data.Length;
    var nFft := BlockCount(n, half);
    if nFft > 0 {
      WindowInside(n, half, 0);
    }
    PaddedStartsWithData(data[..], half);
    CopyInto(ib, 0, data[..]);
    CopyInto(ib, n, Zeros((nFft + 1) * half - n));
    assert ib[..(nFft + 1) * half] == data[..] + Zeros((nFft + 1) * half - n);
  }

  /** Blocks 0 .. i-1 of the output buffer, block b at b * fft_size, hold the
      spectra of their windows. */
  ghost predicate SpectraStored(ob: seq<Complex>, input: seq<Complex>, half: nat, forward: Transform, i: nat)
    requires half > 0 && i <= BlockCount(|input|, half)
  {
    && i * (2 * half) <= |ob|
    && forall b :: 0 <= b < i ==>
         0 <= b * (2 * half) <= b * (2 * half) + 2 * half <= |ob|
         && ob[b * (2 * half) .. b * (2 * half) + 2 * half] == BlockSpectrum(input, half, forward, b)
  }

  /** The forward loop: the window of block i, at i * half, is transformed into
      the output buffer at i * fft_size. */
  method ForwardBlocks(ib: array<Complex>, ob: array<Complex>, input: seq<Complex>, half: nat, forward: Transform)
    requires half > 0 && ib != ob
    requires BlockCount(|input|, half) * (2 * half) <= ob.Length
    requires (BlockCount(|input|, half) + 1) * half <= ib.Length
    requires ib[..(BlockCount(|input|, half) + 1) * half] == Padded(input, half)
    modifies ob
    ensures SpectraStored(ob[..], input, half, forward, BlockCount(|input|, half))
  {
    var nFft := BlockCount(|input|, half);
    var i := 0;
    while i < nFft
      invariant 0 <= i <= nFft
      invariant SpectraStored(ob[..], input, half, forward, i)
    {
      ForwardBlock(ib, ob, input, half, forward, i);
      i := i + 1;
    }
  }

  /** One iteration of the forward loop: block i joins the output buffer. */
  method ForwardBlock(ib: array<Complex>, ob: array<Complex>, input: seq<Complex>, half: nat, forward: Transform,
                      i: nat)
    requires half > 0 && ib != ob && i < BlockCount(|input|, half)
    requires BlockCount(|input|, half) * (2 * half) <= ob.Length
    requires (BlockCount(|input|, half) + 1) * half <= ib.Length
    requires ib[..(BlockCount(|input|, half) + 1) * half] == Padded(input, half)
    requires SpectraStored(ob[..], input, half, forward, i)
    modifies ob
    ensures SpectraStored(ob[..], input, half, forward, i + 1)
  {
    WindowInside(|input|, half, i);
    var lo := i * half;
    WindowOfPrefix(ib[..], Padded(input, half), lo, lo + 2 * half);
    var block := Resize(forward(ib[lo .. lo + 2 * half]), 2 * half);
    StoreBlock(ob, input, half, forward, i, block);
  }

  /** The pffft_transform output of block i lands at i * fft_size; the blocks
      before it are kept. */
  method StoreBlock(ob: array<Complex>, ghost input: seq<Complex>, half: nat, forward: Transform, i: nat,
                    block: seq<Complex>)
    requires half > 0 && i < BlockCount(|input|, half)
    requires BlockCount(|input|, half) * (2 * half) <= ob.Length
    requires block == BlockSpectrum(input, half, forward, i)
    requires SpectraStored(ob[..], input, half, forward, i)
    modifies ob
    ensures SpectraStored(ob[..], input, half, forward, i + 1)
  {
    BlockEnd(i, BlockCount(|input|, half), 2 * half);
    var offset := i * (2 * half);
    ghost var before := ob[..];
    CopyInto(ob, offset, block);
    StoredAfterCopy(before, ob[..], input, half, forward, i);
  }

  /** Copying the spectrum of block i over before at i * fft_size adds block
      i to the stored spectra. */
  lemma StoredAfterCopy(before: seq<Complex>, after: seq<Complex>, input: seq<Complex>, half: nat,
                        forward: Transform, i: nat)
    requires half > 0 && i < BlockCount(|input|, half)
    requires 0 <= i * (2 * half) && i * (2 * half) + 2 * half <= |before|
    requires SpectraStored(before, input, half, forward, i)
    requires after == before[..i * (2 * half)] + BlockSpectrum(input, half, forward, i)
      + before[i * (2 * half) + 2 * half..]
    ensures SpectraStored(after, input, half, forward, i + 1)
  {
    var w := 2 * half;
    var offset := i * w;
    forall b | 0 <= b < i + 1
      ensures 0 <= b * w <= b * w + w <= |after|
      ensures after[b * w .. b * w + w] == BlockSpectrum(input, half, forward, b)
    {
      BlockEnd(b, i + 1, w);
      if b < i {
        BlockEnd(b, i, w);
        SliceBefore(before, after, offset, b * w, b * w + w);
      } else {
        assert after[offset .. offset + w] == BlockSpectrum(input, half, forward, i);
      }
    }
    BlockEnd(i, i + 1, w);
  }

  /** A slice of a prefix is a slice of the whole. */
  lemma WindowOfPrefix(a: seq<Complex>, p: seq<Complex>, lo: int, hi: int)
    requires 0 <= lo <= hi <= |p| <= |a| && a[..|p|] == p
    ensures a[lo..hi] == p[lo..hi]
  {
    assert forall k :: lo <= k < hi ==> a[k] == a[..|p|][k];
  }

  /** A copy at offset keeps every slice below offset. */
  lemma SliceBefore(before: seq<Complex>, after: seq<Complex>, offset: nat, lo: int, hi: int)
    requires 0 <= lo <= hi <= offset <= |before| && offset <= |after|
    requires after[..offset] == before[..offset]
    ensures after[lo..hi] == before[lo..hi]
  {
    assert forall k :: lo <= k < hi ==> after[k] == after[..offset][k];
  }

  /** The filter loop: block i is filtered in the input buffer at i * fft_size
      and its first used_size samples are copied to data at i * half. */
  method FilterBlocks(ib: array<Complex>, ob: array<Complex>, data: array<Complex>, kernel: seq<Complex>, half: nat,
                      forward: Transform, filter: Filter)
    requires half > 0 && ib != ob && data != ib && data != ob
    requires BlockCount(data.Length, half) * (2 * half) <= ib.Length
    requires SpectraStored(ob[..], data[..], half, forward, BlockCount(data.Length, half))
    modifies ib, data
    ensures data[..] == Convolved(old(data[..]), kernel, half, forward, filter)
  {
    var n := data.Length;
    var nFft := BlockCount(n, half);
    ghost var input := data[..];
    ghost var result := Convolved(input, kernel, half, forward, filter);
    var i := 0;
    while i < nFft
      invariant 0 <= i <= nFft
      invariant data.Length == n
      invariant data[..] == result[..Written(n, half, i)] + input[Written(n, half, i)..]
      invariant SpectraStored(ob[..], input, half, forward, nFft)
    {
      FilterBlock(ib, ob, data, input, kernel, half, forward, filter, i);
      i := i + 1;
    }
    BlockCountIsCeiling(n, half);
    assert data[..] == result[..n] + input[n..];
  }

  /** One iteration of the filter loop: block i is written back. */
  method FilterBlock(ib: array<Complex>, ob: array<Complex>, data: array<Complex>, ghost input: seq<Complex>,
                     kernel: seq<Complex>, half: nat, forward: Transform, filter: Filter, i: nat)
    requires half > 0 && ib != ob && data != ib && data != ob
    requires data.Length == |input| && i < BlockCount(|input|, half)
    requires BlockCount(|input|, half) * (2 * half) <= ib.Length
    requires SpectraStored(ob[..], input, half, forward, BlockCount(|input|, half))
    requires data[..] == Convolved(input, kernel, half, forward, filter)[..Written(|input|, half, i)]
      + input[Written(|input|, half, i)..]
    modifies ib, data
    ensures data[..] == Convolved(input, kernel, half, forward, filter)[..Written(|input|, half, i + 1)]
      + input[Written(|input|, half, i + 1)..]
  {
    var n := data.Length;
    BlockGeometry(n, half, i);
    var offset := i * (2 * half);
    var used := if n - i * half < half then n - i * half else half;
    FilterOne(ib, ob, input, kernel, half, forward, filter, i);
    var lo := offset / 2;
    ghost var c := Convolved(input, kernel, half, forward, filter);
    ghost var out := BlockOut(input, kernel, half, forward, filter, i);
    ConvolvedBlock(input, kernel, half, forward, filter, i);
    SliceOfSlice(ib[..], offset, 2 * half, used, out);
    assert lo == Written(n, half, i) && lo + used == Written(n, half, i + 1);
    WriteBackOne(data, ib[offset .. offset + used], lo, c, input);
  }

  /** The first used samples of a slice. */
  lemma SliceOfSlice(a: seq<Complex>, lo: nat, w: nat, used: nat, s: seq<Complex>)
    requires lo + w <= |a| && used <= w && a[lo .. lo + w] == s
    ensures a[lo .. lo + used] == s[..used]
  {
    assert a[lo .. lo + used] == a[lo .. lo + w][..used];
  }

  /** The arithmetic of one filter iteration: the block's window in the
      buffers, its write-back range in data and the reach before and after. */
  lemma BlockGeometry(n: nat, half: nat, i: nat)
    requires half > 0 && i < BlockCount(n, half)
    ensures 0 <= i * half && 0 < UsedSize(n, half, i) <= half && i * half + UsedSize(n, half, i) <= n
    ensures 0 <= i * (2 * half) && i * (2 * half) + 2 * half <= BlockCount(n, half) * (2 * half)
    ensures i * (2 * half) / 2 == i * half
    ensures Written(n, half, i) == i * half && Written(n, half, i + 1) == i * half + UsedSize(n, half, i)
  {
    WindowInside(n, half, i);
    BlockEnd(i, BlockCount(n, half), 2 * half);
    Twice(i, half);
    WrittenStep(n, half, i);
  }

  /** The zeroing, pffft_zconvolve_accumulate, pffft_zreorder and backward
      transform of block i: its filtered block lands in the input buffer at
      i * fft_size. */
  method FilterOne(ib: array<Complex>, ob: array<Complex>, ghost input: seq<Complex>, kernel: seq<Complex>,
                   half: nat, forward: Transform, filter: Filter, i: nat)
    requires half > 0 && ib != ob && i < BlockCount(|input|, half)
    requires BlockCount(|input|, half) * (2 * half) <= ib.Length
    requires SpectraStored(ob[..], input, half, forward, BlockCount(|input|, half))
    modifies ib
    ensures i * (2 * half) + 2 * half <= ib.Length
    ensures ib[i * (2 * half) .. i * (2 * half) + 2 * half] == BlockOut(input, kernel, half, forward, filter, i)
  {
    BlockGeometry(|input|, half, i);
    var offset := i * (2 * half);
    assert ob[offset .. offset + 2 * half] == BlockSpectrum(input, half, forward, i);
    var out := Resize(filter(ob[offset .. offset + 2 * half], kernel), 2 * half);
    CopyInto(ib, offset, out);
    assert ib[offset .. offset + 2 * half] == out;
  }

  /** The memcpy of a filtered block back into data at lo: when data holds
      the result c up to lo and the input after it, and blk is c from lo on,
      the result then reaches lo + |blk|. */
  method WriteBackOne(data: array<Complex>, blk: seq<Complex>, lo: nat, ghost c: seq<Complex>,
                      ghost input: seq<Complex>)
    requires |c| == |input| == data.Length && lo + |blk| <= |c|
    requires c[lo .. lo + |blk|] == blk
    requires data[..] == c[..lo] + input[lo..]
    modifies data
    ensures data[..] == c[..lo + |blk|] + input[lo + |blk|..]
  {
    ghost var before := data[..];
    CopyInto(data, lo, blk);
    assert before[..lo] == c[..lo];
    assert before[lo + |blk|..] == input[lo + |blk|..];
    assert c[..lo + |blk|] == c[..lo] + blk;
  }

  /** Block i < n_fft starts below n, and the write-back reach grows by
      used_size. */
  lemma WrittenStep(n: nat, half: nat, i: nat)
    requires half > 0 && i < BlockCount(n, half)
    ensures Written(n, half, i) == i * half
    ensures Written(n, half, i + 1) == i * half + UsedSize(n, half, i)
  {
    WindowInside(n, half, i);
    assert (i + 1) * half == i * half + half;
  }

  /** HyScanConvolution: the kernel (pffft setup and fft_image, present or
      absent together), the transform size and the two scratch buffers of
      max_points samples each. */
  class Convolver {
    var kernel: Option<seq<Complex>>
    var fftSize: int
    var maxPoints: nat
    var ibuff: array<Complex>
    var obuff: array<Complex>

    predicate Valid()
      reads this
    {
      && ibuff != obuff
      && ibuff.Length == maxPoints && obuff.Length == maxPoints
      && (kernel.Some? ==> 32 <= fftSize && fftSize % 2 == 0 && |kernel.value| == fftSize)
    }

    /** `hyscan_convolution_new`: every field zero, no kernel, no buffers. */
    constructor ()
      ensures Valid()
      ensures kernel == None && fftSize == 0 && maxPoints == 0
    {
      kernel := None;
      fftSize := 0;
      maxPoints := 0;
      ibuff := new Complex[0];
      obuff := new Complex[0];
    }

    /** `hyscan_convolution_set_image`: drop the kernel; with an image, pick the
        least admissible size at least twice its length and store the
        prepared, zero-padded image. */
    method SetImage(image: Option<seq<Complex>>, forwardOrdered: Transform, reorder: Transform) returns (ok: bool)
      requires Valid()
      requires image.Some? ==> 2 * |image.value| < MaxInt32
      modifies this
      ensures Valid()
      ensures maxPoints == old(maxPoints) && ibuff == old(ibuff) && obuff == old(obuff)
      ensures image.None? ==> ok && kernel == None && fftSize == 2
      ensures image.Some? ==> (ok <==> 2 * |image.value| <= 622080)
      ensures !ok ==> kernel == None && fftSize == 2
      ensures ok && image.Some? ==>
        && fftSize >= 2 * |image.value| && IsCandidate(fftSize) && LeastAtLeast(fftSize, 2 * |image.value|)
        && kernel == Some(Kernel(image.value, fftSize, forwardOrdered, reorder))
    {
      kernel := None;
      fftSize := 2;
      if image.None? {
        return true;
      }
      var convSize := 2 * |image.value|;
      var optSize := OptimalSize(convSize);
      OptimalSizeBound(convSize, optSize);
      if optSize == MaxInt32 {
        return false;
      }
      fftSize := optSize;
      var padded := Resize(image.value, optSize);
      var spectrum := Resize(forwardOrdered(padded), optSize);
      var buff := new Complex[optSize](i requires 0 <= i < optSize => spectrum[i]);
      assert buff[..] == spectrum;
      ConjugateInPlace(buff);
      kernel := Some(Resize(reorder(buff[..]), optSize));
      ok := true;
    }

    /** `hyscan_convolution_convolve`: overlap-add over windows of fft_size
        samples stepped by half of it; the first used_size samples of every
        filtered block go back into data. */
    method Convolve(data: array<Complex>, forward: Transform, filter: Filter) returns (ok: bool)
      requires Valid()
      requires data != ibuff && data != obuff
      requires kernel.Some? && data.Length == 0 ==> fftSize / 2 <= maxPoints
      requires kernel.Some? ==> BlockCount(data.Length, fftSize / 2) * fftSize <= MaxInt32
      modifies this, ibuff, obuff, data
      ensures Valid()
      ensures kernel == old(kernel) && fftSize == old(fftSize)
      ensures ok <==> kernel.Some?
      ensures !ok ==> data[..] == old(data[..]) && maxPoints == old(maxPoints)
      ensures ok ==> maxPoints == Max(old(maxPoints), BlockCount(data.Length, fftSize / 2) * fftSize)
      ensures ok ==> data[..] == Convolved(old(data[..]), kernel.value, fftSize / 2, forward, filter)
    {
      if kernel.None? {
        return false;
      }
      var full := fftSize;
      var half := full / 2;
      var n := data.Length;
      var nFft := n / half;
      if n % half != 0 {
        nFft := nFft + 1;
      }
      assert nFft == BlockCount(n, half);
      if nFft * full > maxPoints {
        maxPoints := nFft * full;
        ibuff := new Complex[maxPoints];
        obuff := new Complex[maxPoints];
      }
      CopyAndPad(ibuff, data, half);
      ForwardBlocks(ibuff, obuff, data[..], half, forward);
      FilterBlocks(ibuff, obuff, data, kernel.value, half, forward, filter);
      ok := true;
    }
  }
}
