/** The transform engine of hyscan-fft.c: the table of transform sizes and the
    rounding to it, the allocation check, the plan cache of `prepare`, the
    frequency alignment ("transposition") and the four transform entry points.
    The Fourier transform itself (pffft) is foreign: each entry point receives it
    as a function parameter. */
module Fft {
  import opened Common

  /** The table of admissible transform sizes (`fft_sizes`), in rows of twenty. */
  const Row0: seq<nat> :=
    [32, 64, 96, 128, 160, 192, 256, 288, 320, 384,
     480, 512, 576, 640, 768, 800, 864, 960, 1024, 1152]
  const Row1: seq<nat> :=
    [1280, 1440, 1536, 1600, 1728, 1920, 2048, 2304, 2400, 2560,
     2592, 2880, 3072, 3200, 3456, 3840, 4000, 4096, 4320, 4608]
  const Row2: seq<nat> :=
    [4800, 5120, 5184, 5760, 6144, 6400, 6912, 7200, 7680, 7776,
     8000, 8192, 8640, 9216, 9600, 10240, 10368, 11520, 12000, 12288]
  const Row3: seq<nat> :=
    [12800, 12960, 13824, 14400, 15360, 15552, 16000, 16384, 17280, 18432,
     19200, 20000, 20480, 20736, 21600, 23040, 23328, 24000, 24576, 25600]
  const Row4: seq<nat> :=
    [25920, 27648, 28800, 30720, 31104, 32000, 32768, 34560, 36000, 36864,
     38400, 38880, 40000, 40960, 41472, 43200, 46080, 46656, 48000, 49152]
  const Row5: seq<nat> :=
    [51200, 51840, 55296, 57600, 60000, 61440, 62208, 64000, 64800, 65536,
     69120, 69984, 72000, 73728, 76800, 77760, 80000, 81920, 82944, 86400]
  const Row6: seq<nat> :=
    [92160, 93312, 96000, 98304, 100000, 102400, 103680, 108000, 110592, 115200,
     116640, 120000, 122880, 124416, 128000, 129600, 131072, 138240, 139968, 144000]
  const Row7: seq<nat> :=
    [147456, 153600, 155520, 160000, 163840, 165888, 172800, 180000, 184320, 186624,
     192000, 194400, 196608, 200000, 204800, 207360, 209952, 216000, 221184, 230400]
  const Row8: seq<nat> :=
    [233280, 240000, 245760, 248832, 256000, 259200, 262144, 276480, 279936, 288000,
     294912, 300000, 307200, 311040, 320000, 324000, 327680, 331776, 345600, 349920]
  const Row9: seq<nat> :=
    [360000, 368640, 373248, 384000, 388800, 393216, 400000, 409600, 414720, 419904,
     432000, 442368, 460800, 466560, 480000, 491520, 497664, 500000, 512000, 518400]
  const Row10: seq<nat> :=
    [524288, 540000, 552960, 559872, 576000, 583200, 589824, 600000, 614400, 622080,
     629856, 640000, 648000, 655360, 663552, 691200, 699840, 720000, 737280, 746496]
  const Row11: seq<nat> :=
    [768000, 777600, 786432, 800000, 819200, 829440, 839808, 864000, 884736, 900000,
     921600, 933120, 960000, 972000, 983040, 995328, 1000000, 1024000, 1036800, 1048576]

  const FftSizes: seq<nat> :=
    Row0 + Row1 + Row2 + Row3 + Row4 + Row5 + Row6 + Row7 + Row8 + Row9 + Row10 + Row11

  /** The largest size in the table. */
  const MaxTransformSize: nat := 1048576

  /** Each entry is smaller than the next one. */
  predicate StepAscending(s: seq<nat>)
  {
    forall i :: 0 <= i < |s| - 1 ==> s[i] < s[i + 1]
  }

  /** Every entry is smaller than every later one. */
  predicate Ascending(s: seq<nat>)
  {
    forall i, j :: 0 <= i < j < |s| ==> s[i] < s[j]
  }

  lemma {:induction false} StepAscendingIsAscending(s: seq<nat>)
    requires StepAscending(s)
    ensures Ascending(s)
  {
    if |s| > 1 {
      StepAscendingIsAscending(s[1..]);
      forall i, j | 0 <= i < j < |s| ensures s[i] < s[j] {
        if i > 0 {
          assert s[i] == s[1..][i - 1] && s[j] == s[1..][j - 1];
        } else if j > 1 {
          assert s[1] == s[1..][0] && s[j] == s[1..][j - 1];
        }
      }
    }
  }

  lemma StepAscendingConcat(a: seq<nat>, b: seq<nat>)
    requires StepAscending(a) && StepAscending(b)
    requires a != [] && b != [] && a[|a| - 1] < b[0]
    ensures StepAscending(a + b)
  {
    forall i | 0 <= i < |a + b| - 1 ensures (a + b)[i] < (a + b)[i + 1] {
      if i >= |a| {
        assert (a + b)[i] == b[i - |a|] && (a + b)[i + 1] == b[i + 1 - |a|];
      }
    }
  }

  /** Every row of the table is ascending on its own. */
  lemma LowRowsAscending()
    ensures StepAscending(Row0) && StepAscending(Row1) && StepAscending(Row2)
    ensures StepAscending(Row3) && StepAscending(Row4) && StepAscending(Row5)
  {
  }

  lemma HighRowsAscending()
    ensures StepAscending(Row6) && StepAscending(Row7) && StepAscending(Row8)
    ensures StepAscending(Row9) && StepAscending(Row10) && StepAscending(Row11)
  {
  }

  /** The table is strictly ascending, runs from 32 to MaxTransformSize and has
      240 entries. */
  lemma TableAscending()
    ensures |FftSizes| == 240 && FftSizes[0] == 32 && FftSizes[239] == MaxTransformSize
    ensures Ascending(FftSizes)
  {
    LowRowsAscending();
    HighRowsAscending();
    var s := Row0;
    StepAscendingConcat(s, Row1); s := s + Row1;
    StepAscendingConcat(s, Row2); s := s + Row2;
    StepAscendingConcat(s, Row3); s := s + Row3;
    StepAscendingConcat(s, Row4); s := s + Row4;
    StepAscendingConcat(s, Row5); s := s + Row5;
    StepAscendingConcat(s, Row6); s := s + Row6;
    StepAscendingConcat(s, Row7); s := s + Row7;
    StepAscendingConcat(s, Row8); s := s + Row8;
    StepAscendingConcat(s, Row9); s := s + Row9;
    StepAscendingConcat(s, Row10); s := s + Row10;
    StepAscendingConcat(s, Row11); s := s + Row11;
    StepAscendingIsAscending(FftSizes);
  }

  /** The first entry of s at or after position i that is at least size, or 0
      when there is none: the search of `hyscan_fft_get_transform_size`. */
  function FirstAtLeast(s: seq<nat>, size: nat, i: nat): nat
    decreases |s| - i
  {
    if i >= |s| then 0
    else if size <= s[i] then s[i]
    else FirstAtLeast(s, size, i + 1)
  }

  /** The transform size a request is rounded up to; 0 means "no such size". */
  function TransformSize(size: nat): nat
  {
    FirstAtLeast(FftSizes, size, 0)
  }

  /** On an ascending sequence of positive entries the search finds the least
      entry at or after i that is at least size, and 0 exactly when no entry
      there is large enough. */
  lemma {:induction false} FirstAtLeastIsLeast(s: seq<nat>, size: nat, i: nat)
    requires Ascending(s)
    requires forall k :: 0 <= k < |s| ==> s[k] > 0
    requires i <= |s|
    ensures var r := FirstAtLeast(s, size, i);
      && (r == 0 <==> forall k :: i <= k < |s| ==> s[k] < size)
      && (r != 0 ==> exists k :: i <= k < |s| && s[k] == r)
      && (r != 0 ==> size <= r)
      && (forall k :: i <= k < |s| && size <= s[k] ==> r <= s[k])
    decreases |s| - i
  {
    if i < |s| && s[i] < size {
      FirstAtLeastIsLeast(s, size, i + 1);
    }
  }

  /** Rounding finds the least table entry at least as large as the request,
      and fails exactly for requests beyond the largest entry. */
  lemma TransformSizeIsLeast(size: nat)
    ensures TransformSize(size) == 0 <==> size > MaxTransformSize
    ensures TransformSize(size) != 0 ==> TransformSize(size) in FftSizes && size <= TransformSize(size)
    ensures forall t :: t in FftSizes && size <= t ==> TransformSize(size) <= t
  {
    TableAscending();
    FirstAtLeastIsLeast(FftSizes, size, 0);
    if size <= MaxTransformSize {
      assert FftSizes[239] >= size;
    } else {
      forall k | 0 <= k < |FftSizes| ensures FftSizes[k] < size {
        if k < 239 { assert FftSizes[k] < FftSizes[239]; }
      }
    }
  }

  /** Rounding never goes down while it succeeds, and larger requests never get
      smaller sizes. */
  lemma TransformSizeMonotone(a: nat, b: nat)
    requires a <= b && TransformSize(b) != 0
    ensures TransformSize(a) != 0 && TransformSize(a) <= TransformSize(b)
  {
    TransformSizeIsLeast(a);
    TransformSizeIsLeast(b);
  }

  /** The table entries are exactly the sizes that rounding leaves unchanged. */
  lemma TransformSizeFixedPoints(x: nat)
    ensures TransformSize(x) == x <==> x in FftSizes
  {
    TransformSizeIsLeast(x);
    TableAscending();
  }

  /** Rounding is idempotent. */
  lemma TransformSizeIdempotent(size: nat)
    ensures TransformSize(TransformSize(size)) == TransformSize(size) || TransformSize(size) == 0
  {
    TransformSizeIsLeast(size);
    TransformSizeFixedPoints(TransformSize(size));
  }

  /** `hyscan_fft_get_transform_size`: scan the table, stop at the first entry
      that is at least size. */
  method GetTransformSize(size: nat) returns (fftSize: nat)
    ensures fftSize == TransformSize(size)
  {
    fftSize := 0;
    var i := 0;
    while i < |FftSizes|
      invariant 0 <= i <= |FftSizes|
      invariant fftSize == 0
      invariant FirstAtLeast(FftSizes, size, i) == TransformSize(size)
    {
      if size <= FftSizes[i] {
        fftSize := FftSizes[i];
        break;
      }
      i := i + 1;
    }
  }

  /** HyScanFFTType. */
  datatype FftType = TypeInvalid | TypeReal | TypeComplex

  /** HyScanFFTDirection. */
  datatype Direction = Forward | Backward

  /** A zero-filled buffer handed out by `hyscan_fft_alloc`: fft_size floats for
      real data, fft_size complex samples for complex data. */
  datatype Allocation = RealBuffer(floats: seq<real>) | ComplexBuffer(samples: seq<Complex>)

  /** `hyscan_fft_alloc`: refuses the invalid type and every size that is not
      its own rounding; otherwise returns a zeroed buffer of that size. */
  function Alloc(kind: FftType, fftSize: nat): (r: Option<Allocation>)
    ensures r.Some? <==> kind != TypeInvalid && fftSize in FftSizes
    ensures r.Some? && kind == TypeReal ==> r.value == RealBuffer(RealZeros(fftSize))
    ensures r.Some? && kind == TypeComplex ==> r.value == ComplexBuffer(Zeros(fftSize))
  {
    TransformSizeFixedPoints(fftSize);
    if kind == TypeInvalid then None
    else if fftSize != TransformSize(fftSize) then None
    else if kind == TypeReal then Some(RealBuffer(RealZeros(fftSize)))
    else Some(ComplexBuffer(Zeros(fftSize)))
  }

  /** A transform plan (PFFFT_Setup): the data kind and the size it was built for. */
  datatype Plan = Plan(kind: FftType, size: nat)

  /** The foreign transforms pffft_transform_ordered for real and for complex
      data: plan, direction and the fft_size values of the buffer in, the
      buffer's new contents out. */
  type RealTransform = (Plan, Direction, seq<real>) -> seq<real>
  type ComplexTransform = (Plan, Direction, seq<Complex>) -> seq<Complex>

  /** The buffer rotated left by k places: what swapping its first k samples
      with the remaining ones produces. */
  function Rotate(s: seq<Complex>, k: nat): seq<Complex>
    requires k <= |s|
  {
    s[k..] + s[..k]
  }

  /** Rotation moves sample (j + k) mod n to position j. */
  lemma RotateAt(s: seq<Complex>, k: nat, j: nat)
    requires k <= |s| && j < |s|
    ensures |Rotate(s, k)| == |s|
    ensures Rotate(s, k)[j] == s[(j + k) % |s|]
  {
    ModOnce(j + k, |s|);
    if j + k < |s| {
      assert Rotate(s, k)[j] == s[k..][j];
    } else {
      assert Rotate(s, k)[j] == s[..k][j + k - |s|];
    }
  }

  /** Below 2n, reducing mod n subtracts n at most once. */
  lemma ModOnce(x: nat, n: nat)
    requires 0 < n && x < 2 * n
    ensures x % n == if x < n then x else x - n
  {
    if x >= n {
      assert x == 1 * n + (x - n);
    }
  }

  /** Rotation loses and duplicates nothing. */
  lemma RotatePermutes(s: seq<Complex>, k: nat)
    requires k <= |s|
    ensures multiset(Rotate(s, k)) == multiset(s)
  {
    assert s == s[..k] + s[k..];
  }

  /** The heterodyne clamp of `hyscan_fft_transposition`: the heterodyne is moved
      into [frequency0 - rate/2, frequency0 + rate/2 - rate/fftSize]. */
  function ClampHeterodyne(frequency0: real, heterodyne: real, dataRate: real, fftSize: nat): (r: real)
    requires fftSize > 0
    ensures dataRate >= 0.0 ==>
      frequency0 - dataRate / 2.0 <= r <= frequency0 + dataRate / 2.0 - dataRate / fftSize as real
    ensures frequency0 - dataRate / 2.0 <= heterodyne <= frequency0 + dataRate / 2.0 - dataRate / fftSize as real
      ==> r == heterodyne
  {
    var half := dataRate / 2.0;
    var df := dataRate / fftSize as real;
    assert dataRate >= 0.0 ==> df <= dataRate by {
      if dataRate >= 0.0 {
        assert df * fftSize as real == dataRate;
      }
    }
    if heterodyne < frequency0 - half then frequency0 - half
    else if heterodyne > frequency0 + half - df then frequency0 + half - df
    else heterodyne
  }

  /** memmove (data, data + offset, n - offset): every sample moves offset
      places towards the front; the last offset samples stay. */
  method ShiftDown(data: array<Complex>, offset: nat)
    requires offset <= data.Length
    modifies data
    ensures forall i :: 0 <= i < data.Length - offset ==> data[i] == old(data[i + offset])
    ensures forall i :: data.Length - offset <= i < data.Length ==> data[i] == old(data[i])
  {
    ghost var orig := data[..];
    var j := 0;
    while j < data.Length - offset
      invariant 0 <= j <= data.Length - offset
      invariant forall i :: 0 <= i < j ==> data[i] == orig[i + offset]
      invariant forall i :: j <= i < data.Length ==> data[i] == orig[i]
    {
      data[j] := data[j + offset];
      j := j + 1;
    }
  }

  /** memcpy (data + at, src, |src|) filling the array to its end. */
  method CopyIn(data: array<Complex>, src: seq<Complex>, at: nat)
    requires at + |src| == data.Length
    modifies data
    ensures forall i :: 0 <= i < at ==> data[i] == old(data[i])
    ensures forall i :: at <= i < data.Length ==> data[i] == src[i - at]
  {
    var k := 0;
    while k < |src|
      invariant 0 <= k <= |src|
      invariant forall i :: 0 <= i < at ==> data[i] == old(data[i])
      invariant forall i :: at <= i < at + k ==> data[i] == src[i - at]
    {
      data[at + k] := src[k];
      k := k + 1;
    }
  }

  /** A buffer holding s[k..] followed by s[..k] is the rotation by k. */
  lemma RotateFromParts(s: seq<Complex>, k: nat, r: seq<Complex>)
    requires k <= |s| && |r| == |s|
    requires forall i :: 0 <= i < |s| - k ==> r[i] == s[i + k]
    requires forall i :: |s| - k <= i < |s| ==> r[i] == s[..k][i - (|s| - k)]
    ensures r == Rotate(s, k)
  {
    assert forall i :: 0 <= i < |s| ==> r[i] == Rotate(s, k)[i];
  }

  /** The segment swap of `hyscan_fft_transposition`: the last index0 samples
      move to the front. index0 is the position the zero frequency lands on,
      which the source derives from the clamped heterodyne; the buffer holds
      fft_size samples. */
  method Transposition(data: array<Complex>, index0: nat)
    requires index0 <= data.Length
    modifies data
    ensures data[..] == Rotate(old(data[..]), data.Length - index0)
  {
    var sizeFirst := data.Length - index0;
    var sizeSecond := data.Length - sizeFirst;
    ghost var orig := data[..];
    var temp := data[..sizeFirst];
    ShiftDown(data, sizeFirst);
    CopyIn(data, temp, sizeSecond);
    RotateFromParts(orig, sizeFirst, data[..]);
  }

  /** A transform's result written into the caller's buffer, then aligned
      when alignment is on. */
  method StoreSpectrum(data: array<Complex>, spectrum: seq<Complex>, align: bool, index0: nat)
    requires |spectrum| == data.Length && index0 <= data.Length
    modifies data
    ensures data[..] == if align then Rotate(spectrum, data.Length - index0) else spectrum
  {
    forall i | 0 <= i < data.Length {
      data[i] := spectrum[i];
    }
    assert data[..] == spectrum;
    if align {
      Transposition(data, index0);
    }
  }

  /** The internal buffer of the const transforms: the spectrum copied into
      it, then aligned in place when alignment is on. */
  method AlignedCopy(spectrum: seq<Complex>, align: bool, index0: nat) returns (r: seq<Complex>)
    requires index0 <= |spectrum|
    ensures r == if align then Rotate(spectrum, |spectrum| - index0) else spectrum
  {
    var buffer := new Complex[|spectrum|];
    StoreSpectrum(buffer, spectrum, align, index0);
    r := buffer[..];
  }

  /** HyScanFFT: the plan cache and the frequency alignment settings. */
  class Engine {
    var kind: FftType              // type of the current plan
    var direction: Direction
    var fftSize: nat
    var plan: Option<Plan>         // NULL until a plan is built
    ghost var builds: nat          // how many plans have been built so far
    var ibuffReal: seq<real>       // result buffer of the const functions, real view
    var ibuffComplex: seq<Complex> // the same buffer, complex view
    var transposition: bool
    var frequency0: real
    var heterodyne: real
    var dataRate: real

    ghost predicate Valid()
      reads this
    {
      && fftSize > 0 && TransformSize(fftSize) == fftSize   // a table size
      && (kind == TypeInvalid ==> plan == None && ibuffReal == [] && ibuffComplex == [])
      && (kind != TypeInvalid ==> plan == Some(Plan(kind, fftSize)))
      && (kind == TypeReal ==> |ibuffReal| == fftSize && ibuffComplex == [])
      && (kind == TypeComplex ==> |ibuffComplex| == fftSize && ibuffReal == [])
    }

    /** `hyscan_fft_new`: no plan, invalid type, the smallest size, alignment off. */
    constructor ()
      ensures Valid()
      ensures kind == TypeInvalid && fftSize == 32 && plan == None && builds == 0
      ensures !transposition
    {
      kind := TypeInvalid;
      direction := Forward;
      fftSize := 32;
      plan := None;
      builds := 0;
      ibuffReal := [];
      ibuffComplex := [];
      transposition := false;
      frequency0 := 0.0;
      heterodyne := 0.0;
      dataRate := 0.0;
      TableAscending();
      TransformSizeFixedPoints(32);
    }

    /** `hyscan_fft_set_transposition`. */
    method SetTransposition(enabled: bool, frequency0: real, heterodyne: real, dataRate: real)
      requires Valid()
      modifies this`transposition, this`frequency0, this`heterodyne, this`dataRate
      ensures Valid()
      ensures transposition == enabled && this.frequency0 == frequency0
      ensures this.heterodyne == heterodyne && this.dataRate == dataRate
    {
      transposition := enabled;
      this.frequency0 := frequency0;
      this.heterodyne := heterodyne;
      this.dataRate := dataRate;
    }

    /** `hyscan_fft_alloc_internal`: a zeroed result buffer of the plan's kind. */
    method AllocInternal()
      modifies this`ibuffReal, this`ibuffComplex
      ensures kind == TypeReal ==> ibuffReal == RealZeros(fftSize) && ibuffComplex == []
      ensures kind == TypeComplex ==> ibuffComplex == Zeros(fftSize) && ibuffReal == []
      ensures kind == TypeInvalid ==> ibuffReal == [] && ibuffComplex == []
    {
      ibuffReal := [];
      ibuffComplex := [];
      if kind == TypeReal {
        ibuffReal := RealZeros(fftSize);
      } else if kind == TypeComplex {
        ibuffComplex := Zeros(fftSize);
      }
    }

    /** `hyscan_fft_prepare`: round the size; rebuild the plan and the buffers
        only when the kind or the rounded size differs from the cached ones; the
        direction is taken on every success. */
    method Prepare(kind: FftType, direction: Direction, size: nat) returns (ok: bool)
      requires Valid() && kind != TypeInvalid
      modifies this
      ensures Valid()
      ensures ok <==> TransformSize(size) != 0
      ensures !ok ==> unchanged(this)
      ensures ok ==> this.kind == kind && fftSize == TransformSize(size) && this.direction == direction
      ensures ok && (kind != old(this.kind) || fftSize != old(fftSize)) ==>
        builds == old(builds) + 1
        && (kind == TypeReal ==> ibuffReal == RealZeros(fftSize))
        && (kind == TypeComplex ==> ibuffComplex == Zeros(fftSize))
      ensures ok && kind == old(this.kind) && fftSize == old(fftSize) ==>
        builds == old(builds) && plan == old(plan)
        && ibuffReal == old(ibuffReal) && ibuffComplex == old(ibuffComplex)
      ensures transposition == old(transposition) && frequency0 == old(frequency0)
      ensures heterodyne == old(heterodyne) && dataRate == old(dataRate)
    {
      var size' := GetTransformSize(size);
      if size' == 0 {
        return false;
      }
      TransformSizeIdempotent(size);
      if kind != this.kind || size' != fftSize {
        this.kind := kind;
        fftSize := size';
        plan := Some(Plan(kind, size'));
        builds := builds + 1;
        AllocInternal();
      }
      this.direction := direction;
      ok := true;
    }

    /** `hyscan_fft_transform_real`: in place over fft_size floats; never aligned. */
    method TransformReal(direction: Direction, data: array?<real>, nPoints: nat, pffft: RealTransform)
      returns (ok: bool)
      requires Valid()
      requires data != null && TransformSize(nPoints) != 0 ==> data.Length == TransformSize(nPoints)
      modifies this, data
      ensures Valid()
      ensures data == null ==> !ok && unchanged(this)
      ensures data != null ==> (ok <==> TransformSize(nPoints) != 0)
      ensures !ok && data != null ==> data[..] == old(data[..]) && unchanged(this)
      ensures transposition == old(transposition) && frequency0 == old(frequency0)
      ensures heterodyne == old(heterodyne) && dataRate == old(dataRate)
      ensures ok ==> builds == old(builds) + (if old(kind) != TypeReal || old(fftSize) != fftSize then 1 else 0)
      ensures ok ==> kind == TypeReal && fftSize == TransformSize(nPoints) && this.direction == direction
      ensures ok ==> data[..] == ResizeReal(pffft(Plan(TypeReal, fftSize), direction, old(data[..])), fftSize)
    {
      if data == null {
        return false;
      }
      ok := Prepare(TypeReal, direction, nPoints);
      if !ok {
        return;
      }
      var out := ResizeReal(pffft(plan.value, this.direction, data[..]), data.Length);
      forall i | 0 <= i < data.Length {
        data[i] := out[i];
      }
    }

    /** `hyscan_fft_transform_complex`: in place over fft_size samples, then the
        frequency alignment when it is enabled. */
    method TransformComplex(direction: Direction, data: array?<Complex>, nPoints: nat, index0: nat,
                            pffft: ComplexTransform)
      returns (ok: bool)
      requires Valid()
      requires data != null && TransformSize(nPoints) != 0 ==> data.Length == TransformSize(nPoints)
      requires index0 <= TransformSize(nPoints)
      modifies this, data
      ensures Valid()
      ensures data == null ==> !ok && unchanged(this)
      ensures data != null ==> (ok <==> TransformSize(nPoints) != 0)
      ensures !ok && data != null ==> data[..] == old(data[..]) && unchanged(this)
      ensures transposition == old(transposition) && frequency0 == old(frequency0)
      ensures heterodyne == old(heterodyne) && dataRate == old(dataRate)
      ensures ok ==> builds == old(builds) + (if old(kind) != TypeComplex || old(fftSize) != fftSize then 1 else 0)
      ensures ok ==> kind == TypeComplex && fftSize == TransformSize(nPoints) && this.direction == direction
      ensures ok ==>
        var spectrum := Resize(pffft(Plan(TypeComplex, fftSize), direction, old(data[..])), fftSize);
        data[..] == if transposition then Rotate(spectrum, fftSize - index0) else spectrum
    {
      if data == null {
        return false;
      }
      ok := Prepare(TypeComplex, direction, nPoints);
      if !ok {
        return;
      }
      var out := Resize(pffft(plan.value, this.direction, data[..]), data.Length);
      StoreSpectrum(data, out, transposition, index0);
    }

    /** `hyscan_fft_transform_const_real`: the input, zero-padded to fft_size,
        is transformed in the internal buffer, which is returned. */
    method TransformConstReal(direction: Direction, data: Option<seq<real>>, pffft: RealTransform)
      returns (r: Option<seq<real>>)
      requires Valid()
      modifies this
      ensures Valid()
      ensures data == None ==> r == None && unchanged(this)
      ensures data.Some? ==> (r.Some? <==> TransformSize(|data.value|) != 0)
      ensures data.Some? && r.None? ==> unchanged(this)
      ensures transposition == old(transposition) && frequency0 == old(frequency0)
      ensures heterodyne == old(heterodyne) && dataRate == old(dataRate)
      ensures r.Some? ==> builds == old(builds) + (if old(kind) != TypeReal || old(fftSize) != fftSize then 1 else 0)
      ensures r.Some? ==> kind == TypeReal && fftSize == TransformSize(|data.value|)
      ensures r.Some? ==>
        r.value == ibuffReal
        && ibuffReal == ResizeReal(pffft(Plan(TypeReal, fftSize), direction, ResizeReal(data.value, fftSize)), fftSize)
    {
      if data == None {
        return None;
      }
      var ok := Prepare(TypeReal, direction, |data.value|);
      if !ok {
        return None;
      }
      ibuffReal := ResizeReal(data.value, fftSize);
      ibuffReal := ResizeReal(pffft(plan.value, this.direction, ibuffReal), fftSize);
      r := Some(ibuffReal);
    }

    /** `hyscan_fft_transform_const_complex`: as the real variant, followed by the
        frequency alignment when it is enabled. */
    method TransformConstComplex(direction: Direction, data: Option<seq<Complex>>, index0: nat,
                                 pffft: ComplexTransform)
      returns (r: Option<seq<Complex>>)
      requires Valid()
      requires data.Some? ==> index0 <= TransformSize(|data.value|)
      modifies this
      ensures Valid()
      ensures data == None ==> r == None && unchanged(this)
      ensures data.Some? ==> (r.Some? <==> TransformSize(|data.value|) != 0)
      ensures data.Some? && r.None? ==> unchanged(this)
      ensures transposition == old(transposition) && frequency0 == old(frequency0)
      ensures heterodyne == old(heterodyne) && dataRate == old(dataRate)
      ensures r.Some? ==> builds == old(builds) + (if old(kind) != TypeComplex || old(fftSize) != fftSize then 1 else 0)
      ensures r.Some? ==> kind == TypeComplex && fftSize == TransformSize(|data.value|)
      ensures r.Some? ==>
        var spectrum := Resize(pffft(Plan(TypeComplex, fftSize), direction, Resize(data.value, fftSize)), fftSize);
        r.value == ibuffComplex
        && ibuffComplex == if transposition then Rotate(spectrum, fftSize - index0) else spectrum
    {
      if data == None {
        return None;
      }
      var ok := Prepare(TypeComplex, direction, |data.value|);
      if !ok {
        return None;
      }
      assert plan.value == Plan(TypeComplex, fftSize);
      var padded := Resize(data.value, fftSize);
      var spectrum := Resize(pffft(plan.value, this.direction, padded), fftSize);
      ibuffComplex := AlignedCopy(spectrum, transposition, index0);
      r := Some(ibuffComplex);
    }
  }
}
