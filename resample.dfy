// The separable cubic resampler of src/cpu/resample.cpp: the Catmull-Rom
// kernel, mirrored boundary indexing, per-output-sample phase tables, the
// two-pass (horizontal then vertical) filter, and the resize entry point
// that converts a caller's view to the packed float image and back.
module Resample {
  import opened Arith
  import opened Grid
  import opened Images
  import opened PixelOps

  // ---------------------------------------------------------------------
  // Kernel and boundary handling

  /** The cubic parameter a of the Keys kernel; -0.5 is Catmull-Rom. */
  const CubicParameter: real := -0.5

  function Abs(x: real): (r: real)
    ensures r >= 0.0 && (r == x || r == -x)
  {
    if x < 0.0 then -x else x
  }

  /** The piecewise cubic of the Keys family with a = CubicParameter. */
  function CubicKernel(x: real): real {
    var a := CubicParameter;
    var t := Abs(x);
    if t < 1.0 then (a + 2.0) * t * t * t - (a + 3.0) * t * t + 1.0
    else if t < 2.0 then a * t * t * t - 5.0 * a * t * t + 8.0 * a * t - 4.0 * a
    else 0.0
  }

  /** The kernel is even, interpolates (1 at 0, 0 at the other integers)
      and has support (-2, 2). */
  lemma CubicKernelShape(x: real)
    ensures CubicKernel(-x) == CubicKernel(x)
    ensures CubicKernel(0.0) == 1.0 && CubicKernel(1.0) == 0.0 && CubicKernel(-1.0) == 0.0
    ensures CubicKernel(2.0) == 0.0 && CubicKernel(-2.0) == 0.0
    ensures Abs(x) >= 2.0 ==> CubicKernel(x) == 0.0
  {
  }

  /** Partition of unity: at any fractional offset f, the four taps
      f + 1, f, f - 1, f - 2 weigh 1 in total. */
  lemma CubicPartition(f: real)
    requires 0.0 <= f < 1.0
    ensures CubicKernel(f + 1.0) + CubicKernel(f) + CubicKernel(f - 1.0) + CubicKernel(f - 2.0) == 1.0
  {
    var g := 1.0 - f;
    assert CubicKernel(f - 1.0) == 1.5 * g * g * g - 2.5 * g * g + 1.0;
    var h := 2.0 - f;
    assert CubicKernel(f - 2.0) == -0.5 * h * h * h + 2.5 * h * h - 4.0 * h + 2.0;
    var e := f + 1.0;
    assert CubicKernel(f + 1.0) == -0.5 * e * e * e + 2.5 * e * e - 4.0 * e + 2.0;
  }

  /** Mirror an arbitrary sample index into [0, length) by reflecting at both
      edges without repeating the edge sample. The remainder is C's, hence
      the fix-up for negative indices. */
  function MirrorIndex(idx: int, length: nat): (r: nat)
    ensures length <= 1 ==> r == 0
    ensures length > 1 ==> r < length
  {
    if length == 0 then 0
    else if length == 1 then 0
    else
      var period := length * 2 - 2;
      var m := CRem(idx, period);
      var m' := if m < 0 then m + period else m;
      if m' >= length then period - m' else m'
  }

  /** Reflection of a residue of the period back into [0, length). */
  function Reflect(m: int, length: nat): int {
    if m >= length then 2 * length - 2 - m else m
  }

  function Mod(a: int, p: int): int requires p > 0 { a % p }

  /** Mirroring equals reflecting the Euclidean residue modulo the period. */
  lemma MirrorEuclid(idx: int, length: nat)
    requires length > 1
    ensures MirrorIndex(idx, length) == Reflect(Mod(idx, 2 * length - 2), length)
  {
    CRemFixup(idx, 2 * length - 2);
  }

  /** In-range indices are left alone. */
  lemma MirrorIdentity(idx: int, length: nat)
    requires 0 <= idx < length
    ensures MirrorIndex(idx, length) == idx
  {
    if length > 1 {
      MirrorEuclid(idx, length);
      DivModUnique(idx, 2 * length - 2, 0, idx);
    }
  }

  /** The edges reflect without repetition: -1 maps to 1 and length to
      length - 2. */
  lemma MirrorEdges(length: nat)
    requires length >= 2
    ensures MirrorIndex(-1, length) == 1
    ensures MirrorIndex(length, length) == length - 2
  {
    var p := 2 * length - 2;
    MirrorEuclid(-1, length);
    MirrorEuclid(length, length);
    DivModUnique(-1, p, -1, p - 1);
    if length == 2 {
      DivModUnique(length, p, 1, 0);
    } else {
      DivModUnique(length, p, 0, length);
    }
  }

  /** Mirroring has period 2 * length - 2. */
  lemma MirrorPeriodic(idx: int, length: nat)
    requires length >= 2
    ensures MirrorIndex(idx + (2 * length - 2), length) == MirrorIndex(idx, length)
  {
    var p := 2 * length - 2;
    MirrorEuclid(idx, length);
    MirrorEuclid(idx + p, length);
    ModShift(idx, p);
  }

  lemma ModShift(a: int, p: int)
    requires p > 0
    ensures Mod(a + p, p) == Mod(a, p)
  {
    var q, r := a / p, a % p;
    assert a == q * p + r;
    assert a + p == (q + 1) * p + r;
    DivModUnique(a + p, p, q + 1, r);
  }

  lemma ModNeg(a: int, p: int)
    requires p > 0
    ensures Mod(-a, p) == if Mod(a, p) == 0 then 0 else p - Mod(a, p)
  {
    var q, r := a / p, a % p;
    assert a == q * p + r;
    if r == 0 {
      assert -a == (-q) * p + 0;
      DivModUnique(-a, p, -q, 0);
    } else {
      assert -a == (-q - 1) * p + (p - r);
      DivModUnique(-a, p, -q - 1, p - r);
    }
  }

  /** Mirroring is symmetric about the first sample. */
  lemma MirrorSymmetric(idx: int, length: nat)
    requires length >= 2
    ensures MirrorIndex(-idx, length) == MirrorIndex(idx, length)
  {
    MirrorEuclid(idx, length);
    MirrorEuclid(-idx, length);
    ModNeg(idx, 2 * length - 2);
  }

  /** Interleaved channel count of a packed image: the element count divided
      by the pixel count, or 0 when the dimensions are zero or do not divide
      the element count. */
  function ComputeChannels(image: Image): (ch: nat)
    ensures ch > 0 ==> image.width > 0 && image.height > 0 &&
                       |image.pixels| == image.width * image.height * ch
  {
    if image.width == 0 || image.height == 0 then 0
    else
      var count := image.width * image.height;
      if count == 0 then 0
      else if |image.pixels| % count != 0 then 0
      else |image.pixels| / count
  }

  /** The channel count is the only positive c with w * h * c elements. */
  lemma ComputeChannelsExact(image: Image, c: nat)
    requires c > 0 && |image.pixels| == image.width * image.height * c
    ensures ComputeChannels(image) == (if image.width * image.height == 0 then 0 else c)
  {
    var count := image.width * image.height;
    if count > 0 {
      DivModUnique(|image.pixels|, count, c, 0);
    }
  }

  // ---------------------------------------------------------------------
  // Phase tables

  /** One output sample's filter (struct CubicPhase): the source sample
      indices and their weights. */
  datatype CubicPhase = CubicPhase(indices: seq<nat>, weights: seq<real>)

  function Join(p: CubicPhase, q: CubicPhase): CubicPhase {
    CubicPhase(p.indices + q.indices, p.weights + q.weights)
  }

  lemma JoinAssoc(p: CubicPhase, q: CubicPhase, r: CubicPhase)
    ensures Join(Join(p, q), r) == Join(p, Join(q, r))
  {
    assert p.indices + q.indices + r.indices == p.indices + (q.indices + r.indices);
    assert p.weights + q.weights + r.weights == p.weights + (q.weights + r.weights);
  }

  lemma JoinEmpty(p: CubicPhase)
    ensures Join(p, CubicPhase([], [])) == p
  {
    assert p.indices + [] == p.indices;
    assert p.weights + [] == p.weights;
  }

  function Tap(index: nat, weight: real): CubicPhase {
    CubicPhase([index], [weight])
  }

  /** Sum of a weight list, accumulated front to back. */
  function Sum(ws: seq<real>): real {
    if |ws| == 0 then 0.0 else Sum(ws[..|ws| - 1]) + ws[|ws| - 1]
  }

  lemma {:induction false} SumAppend(a: seq<real>, b: seq<real>)
    ensures Sum(a + b) == Sum(a) + Sum(b)
    decreases |b|
  {
    if |b| > 0 {
      var b' := b[..|b| - 1];
      assert (a + b)[..|a + b| - 1] == a + b';
      SumAppend(a, b');
    } else {
      assert a + b == a;
    }
  }

  lemma {:induction false} SumPositive(ws: seq<real>)
    requires forall j :: 0 <= j < |ws| ==> ws[j] > 0.0
    ensures Sum(ws) >= 0.0
    ensures |ws| > 0 ==> Sum(ws) > 0.0
  {
    if |ws| > 0 {
      SumPositive(ws[..|ws| - 1]);
    }
  }

  /** Every weight multiplied by k. */
  function Scale(ws: seq<real>, k: real): (r: seq<real>)
    ensures |r| == |ws| && forall j :: 0 <= j < |ws| ==> r[j] == ws[j] * k
  {
    seq(|ws|, j requires 0 <= j < |ws| => ws[j] * k)
  }

  lemma ScalePrefix(ws: seq<real>, k: real)
    requires |ws| > 0
    ensures Scale(ws, k)[..|ws| - 1] == Scale(ws[..|ws| - 1], k)
  {
    var r, r' := Scale(ws, k)[..|ws| - 1], Scale(ws[..|ws| - 1], k);
    forall j | 0 <= j < |ws| - 1 ensures r[j] == r'[j] {
      assert r[j] == ws[j] * k;
    }
  }

  lemma {:induction false} SumScale(ws: seq<real>, k: real)
    ensures Sum(Scale(ws, k)) == Sum(ws) * k
    decreases |ws|
  {
    if |ws| > 0 {
      var ws', last := ws[..|ws| - 1], ws[|ws| - 1];
      ScalePrefix(ws, k);
      SumScale(ws', k);
      assert Sum(Scale(ws, k)) == Sum(ws') * k + last * k;
      assert Sum(ws') * k + last * k == (Sum(ws') + last) * k;
    }
  }

  /** The taps the coverage loop of a downscale phase pushes, from position
      `current` to `end`, with `idx` the source sample that contains
      `current`: each sample gets the length of its overlap with
      [current, end), times the scale. */
  function DownTaps(current: real, end: real, idx: int, scale: real, srcSize: nat): CubicPhase
    requires current < end ==> idx as real <= current
    decreases if current < end then end.Floor - idx + 1 else 0
  {
    if current >= end then CubicPhase([], [])
    else
      var next := MinReal(end, (idx + 1) as real);
      var coverage := next - current;
      var rest := DownTaps(next, end, idx + 1, scale, srcSize);
      if coverage > 0.0 then Join(Tap(MirrorIndex(idx, srcSize), CoverageWeight(coverage, scale)), rest) else rest
  }

  /** std::min(a, b): b when it is smaller, otherwise a. */
  function MinReal(a: real, b: real): (r: real)
    ensures r <= a && r <= b && (r == a || r == b)
  {
    if b < a then b else a
  }

  /** The weight of a source sample covering `coverage` of the output sample. */
  function CoverageWeight(coverage: real, scale: real): real {
    coverage * scale
  }

  /** One step of the coverage loop. */
  lemma DownTapsStep(current: real, end: real, idx: int, scale: real, srcSize: nat)
    requires idx as real <= current < end
    ensures var next := MinReal(end, (idx + 1) as real);
            var rest := DownTaps(next, end, idx + 1, scale, srcSize);
            DownTaps(current, end, idx, scale, srcSize) ==
              if next - current > 0.0 then Join(Tap(MirrorIndex(idx, srcSize), CoverageWeight(next - current, scale)), rest)
              else rest
  {
  }

  /** The coverage loop keeps "taps pushed so far, then the taps still to
      come" equal to the whole phase, and the running sum equal to the sum
      of the pushed weights. */
  lemma DownLoopStep(phase: CubicPhase, current: real, end: real, idx: int, scale: real, srcSize: nat,
                     whole: CubicPhase)
    requires idx as real <= current < end
    requires Join(phase, DownTaps(current, end, idx, scale, srcSize)) == whole
    ensures var next := MinReal(end, (idx + 1) as real);
            var coverage := next - current;
            var phase' := if coverage > 0.0
                          then Join(phase, Tap(MirrorIndex(idx, srcSize), CoverageWeight(coverage, scale)))
                          else phase;
            Join(phase', DownTaps(next, end, idx + 1, scale, srcSize)) == whole &&
            Sum(phase'.weights) == Sum(phase.weights) + (if coverage > 0.0 then CoverageWeight(coverage, scale) else 0.0)
  {
    var next := MinReal(end, (idx + 1) as real);
    var coverage := next - current;
    var rest := DownTaps(next, end, idx + 1, scale, srcSize);
    DownTapsStep(current, end, idx, scale, srcSize);
    if coverage > 0.0 {
      var t := Tap(MirrorIndex(idx, srcSize), CoverageWeight(coverage, scale));
      JoinAssoc(phase, t, rest);
      SumAppend(phase.weights, t.weights);
      assert Sum(t.weights) == CoverageWeight(coverage, scale) by { assert t.weights[..0] == []; }
    }
  }

  /** The taps of an upscale phase among the first n of the four neighbours
      base, base + 1, base + 2, base + 3 of `pos`; taps of weight zero are
      skipped. */
  function UpTaps(pos: real, base: int, n: nat, srcSize: nat): CubicPhase
    decreases n
  {
    if n == 0 then CubicPhase([], [])
    else
      var p := UpTaps(pos, base, n - 1, srcSize);
      var idx := base + n - 1;
      var w := CubicKernel(pos - idx as real);
      if w == 0.0 then p else Join(p, Tap(MirrorIndex(idx, srcSize), w))
  }

  /** The kernel weights of the first n neighbours, skipped or not. */
  function KernelSum(pos: real, base: int, n: nat): real {
    if n == 0 then 0.0 else KernelSum(pos, base, n - 1) + CubicKernel(pos - (base + n - 1) as real)
  }

  /** Divide by the weight sum, or, when the weights sum to zero, append a
      single tap of weight 1 at the fallback index. */
  function Normalize(raw: CubicPhase, fallback: nat): CubicPhase {
    var s := Sum(raw.weights);
    if s != 0.0 then CubicPhase(raw.indices, Scale(raw.weights, 1.0 / s))
    else CubicPhase(raw.indices + [fallback], raw.weights + [1.0])
  }

  function Ratio(a: nat, b: nat): real requires b > 0 { a as real / b as real }

  lemma RatioFacts(a: nat, b: nat)
    requires a > 0 && b > 0
    ensures Ratio(a, b) > 0.0 && Ratio(b, a) > 0.0
    ensures Ratio(a, b) < 1.0 <==> a < b
    ensures a == b ==> Ratio(a, b) == 1.0
  {
  }

  /** A downscale phase: the coverage taps of [start, start + invScale),
      normalised, with the sample nearest to start as fallback. */
  function DownPhase(start: real, invScale: real, scale: real, srcSize: nat): CubicPhase
    requires invScale > 0.0
  {
    Normalize(DownTaps(start, start + invScale, start.Floor, scale, srcSize),
              MirrorIndex(RoundHalfAway(start), srcSize))
  }

  /** An upscale phase: the kernel taps of the four neighbours of pos,
      normalised, with the sample nearest to pos as fallback. */
  function UpPhase(pos: real, srcSize: nat): CubicPhase {
    Normalize(UpTaps(pos, pos.Floor - 1, 4, srcSize), MirrorIndex(RoundHalfAway(pos), srcSize))
  }

  /** The source position where output sample i starts (downscale). */
  function DownStart(i: nat, invScale: real): real {
    i as real * invScale
  }

  /** The source position of the centre of output sample i, pixel centres
      aligned (upscale). */
  function UpCentre(i: nat, invScale: real): real {
    (i as real + 0.5) * invScale - 0.5
  }

  /** Phase i of a downscale table: the source interval
      [i * invScale, (i + 1) * invScale) with invScale = srcSize / dstSize. */
  function DownAt(srcSize: nat, dstSize: nat, i: nat): CubicPhase
    requires srcSize > 0 && dstSize > 0
  {
    var invScale := Ratio(srcSize, dstSize);
    assert invScale > 0.0 by { RatioFacts(srcSize, dstSize); }
    DownPhase(DownStart(i, invScale), invScale, Ratio(dstSize, srcSize), srcSize)
  }

  /** Phase i of an upscale table: the kernel centred on the source position
      (i + 0.5) * invScale - 0.5 (pixel centres aligned). */
  function UpAt(srcSize: nat, dstSize: nat, i: nat): CubicPhase
    requires dstSize > 0
  {
    UpPhase(UpCentre(i, Ratio(srcSize, dstSize)), srcSize)
  }

  /** build_cubic_weight_table as a value: empty if either size is 0,
      otherwise one phase per output sample, of the downscale kind when
      dstSize / srcSize < 1 and of the upscale kind otherwise. */
  function CubicTable(srcSize: nat, dstSize: nat): (t: seq<CubicPhase>)
    ensures |t| == if srcSize == 0 || dstSize == 0 then 0 else dstSize
  {
    if srcSize == 0 || dstSize == 0 then []
    else if Ratio(dstSize, srcSize) < 1.0 then
      seq(dstSize, i requires 0 <= i < dstSize => DownAt(srcSize, dstSize, i))
    else
      seq(dstSize, i requires 0 <= i < dstSize => UpAt(srcSize, dstSize, i))
  }

  /** A phase usable on a line of n samples. */
  predicate PhaseOk(p: CubicPhase, n: nat) {
    |p.indices| == |p.weights| > 0 && forall t :: 0 <= t < |p.indices| ==> p.indices[t] < n
  }

  predicate TableOk(table: seq<CubicPhase>, srcSize: nat, dstSize: nat) {
    |table| == dstSize && forall i :: 0 <= i < |table| ==> PhaseOk(table[i], srcSize)
  }

  lemma {:induction false} DownTapsShape(current: real, end: real, idx: int, scale: real, srcSize: nat)
    requires current < end ==> idx as real <= current
    requires srcSize > 0 && scale > 0.0
    ensures var p := DownTaps(current, end, idx, scale, srcSize);
            |p.indices| == |p.weights| &&
            (forall t :: 0 <= t < |p.indices| ==> p.indices[t] < srcSize) &&
            (forall t :: 0 <= t < |p.weights| ==> p.weights[t] > 0.0)
    decreases if current < end then end.Floor - idx + 1 else 0
  {
    if current < end {
      var next := MinReal(end, (idx + 1) as real);
      DownTapsShape(next, end, idx + 1, scale, srcSize);
      DownTapsStep(current, end, idx, scale, srcSize);
      var rest := DownTaps(next, end, idx + 1, scale, srcSize);
      if next - current > 0.0 {
        var m := MirrorIndex(idx, srcSize);
        var w := CoverageWeight(next - current, scale);
        assert w > 0.0 by { CoverageWeightPositive(next - current, scale); }
        assert DownTaps(current, end, idx, scale, srcSize) == CubicPhase([m] + rest.indices, [w] + rest.weights);
      }
    }
  }

  lemma CoverageWeightPositive(coverage: real, scale: real)
    requires coverage > 0.0 && scale > 0.0
    ensures CoverageWeight(coverage, scale) > 0.0
  {
  }


  lemma {:induction false} UpTapsShape(pos: real, base: int, n: nat, srcSize: nat)
    requires srcSize > 0
    ensures var p := UpTaps(pos, base, n, srcSize);
            |p.indices| == |p.weights| <= n &&
            (forall t :: 0 <= t < |p.indices| ==> p.indices[t] < srcSize) &&
            Sum(p.weights) == KernelSum(pos, base, n)
  {
    if n > 0 {
      UpTapsShape(pos, base, n - 1, srcSize);
      var p := UpTaps(pos, base, n - 1, srcSize);
      var w := CubicKernel(pos - (base + n - 1) as real);
      assert KernelSum(pos, base, n) == KernelSum(pos, base, n - 1) + w;
      if w != 0.0 {
        var m := MirrorIndex(base + n - 1, srcSize);
        assert UpTaps(pos, base, n, srcSize) == CubicPhase(p.indices + [m], p.weights + [w]);
        SumAppend(p.weights, [w]);
        assert Sum([w]) == w by { assert [w][..0] == []; }
      } else {
        assert UpTaps(pos, base, n, srcSize) == p;
      }
    }
  }


  /** The four neighbours of any position weigh 1 together. */
  lemma UpKernelSum(pos: real)
    ensures KernelSum(pos, pos.Floor - 1, 4) == 1.0
  {
    var b := pos.Floor - 1;
    var f := pos - pos.Floor as real;
    assert 0.0 <= f < 1.0;
    assert KernelSum(pos, b, 1) == CubicKernel(f + 1.0) by {
      assert pos - b as real == f + 1.0;
    }
    assert KernelSum(pos, b, 2) == KernelSum(pos, b, 1) + CubicKernel(f) by {
      assert pos - (b + 1) as real == f;
    }
    assert KernelSum(pos, b, 3) == KernelSum(pos, b, 2) + CubicKernel(f - 1.0) by {
      assert pos - (b + 2) as real == f - 1.0;
    }
    assert KernelSum(pos, b, 4) == KernelSum(pos, b, 3) + CubicKernel(f - 2.0) by {
      assert pos - (b + 3) as real == f - 2.0;
    }
    CubicPartition(f);
  }

  lemma NormalizeShape(raw: CubicPhase, fallback: nat, n: nat)
    requires |raw.indices| == |raw.weights|
    requires forall t :: 0 <= t < |raw.indices| ==> raw.indices[t] < n
    requires fallback < n
    ensures PhaseOk(Normalize(raw, fallback), n)
    ensures Sum(Normalize(raw, fallback).weights) == 1.0
    ensures Sum(raw.weights) != 0.0 ==> Normalize(raw, fallback).indices == raw.indices
  {
    var s := Sum(raw.weights);
    if s != 0.0 {
      SumScale(raw.weights, 1.0 / s);
      assert |raw.weights| > 0;
    } else {
      SumAppend(raw.weights, [1.0]);
      assert Sum([1.0]) == 1.0 by { assert [1.0][..0] == []; }
    }
  }

  /** The coverage of [start, start + invScale) starts with a tap. */
  lemma DownTapsNonEmpty(start: real, invScale: real, scale: real, srcSize: nat)
    requires invScale > 0.0
    ensures |DownTaps(start, start + invScale, start.Floor, scale, srcSize).weights| > 0
  {
    var end, idx := start + invScale, start.Floor;
    DownTapsStep(start, end, idx, scale, srcSize);
    var next := MinReal(end, (idx + 1) as real);
    assert next - start > 0.0;
  }

  lemma ScalePositive(ws: seq<real>, k: real)
    requires k > 0.0 && forall j :: 0 <= j < |ws| ==> ws[j] > 0.0
    ensures forall j :: 0 <= j < |ws| ==> Scale(ws, k)[j] > 0.0
  {
    forall j | 0 <= j < |ws| ensures Scale(ws, k)[j] > 0.0 {
      assert Scale(ws, k)[j] == ws[j] * k;
    }
  }

  /** A downscale phase is usable, sums to 1 and has only positive weights. */
  lemma DownPhaseShape(start: real, invScale: real, scale: real, srcSize: nat, p: CubicPhase)
    requires invScale > 0.0 && scale > 0.0 && srcSize > 0
    requires p == DownPhase(start, invScale, scale, srcSize)
    ensures PhaseOk(p, srcSize) && Sum(p.weights) == 1.0 &&
            forall t :: 0 <= t < |p.weights| ==> p.weights[t] > 0.0
  {
    var raw := DownTaps(start, start + invScale, start.Floor, scale, srcSize);
    var fb := MirrorIndex(RoundHalfAway(start), srcSize);
    DownTapsShape(start, start + invScale, start.Floor, scale, srcSize);
    DownTapsNonEmpty(start, invScale, scale, srcSize);
    NormalizeShape(raw, fb, srcSize);
    SumPositive(raw.weights);
    var s := Sum(raw.weights);
    assert s > 0.0;
    ScalePositive(raw.weights, 1.0 / s);
    assert p.weights == Scale(raw.weights, 1.0 / s);
  }

  /** An upscale phase is usable, sums to 1 and has at most four taps. */
  lemma UpPhaseShape(pos: real, srcSize: nat, p: CubicPhase)
    requires srcSize > 0 && p == UpPhase(pos, srcSize)
    ensures PhaseOk(p, srcSize) && Sum(p.weights) == 1.0 && |p.indices| <= 4
  {
    var raw := UpTaps(pos, pos.Floor - 1, 4, srcSize);
    UpTapsShape(pos, pos.Floor - 1, 4, srcSize);
    UpKernelSum(pos);
    NormalizeShape(raw, MirrorIndex(RoundHalfAway(pos), srcSize), srcSize);
  }

  /** A downscale phase of a table is usable, sums to 1 and has only
      positive weights. */
  lemma DownAtShape(srcSize: nat, dstSize: nat, i: nat)
    requires srcSize > 0 && dstSize > 0
    ensures var p := DownAt(srcSize, dstSize, i);
            PhaseOk(p, srcSize) && Sum(p.weights) == 1.0 &&
            forall t :: 0 <= t < |p.weights| ==> p.weights[t] > 0.0
  {
    RatioFacts(srcSize, dstSize);
    DownAtUnfold(srcSize, dstSize, i);
    DownPhaseShape(DownStart(i, Ratio(srcSize, dstSize)), Ratio(srcSize, dstSize), Ratio(dstSize, srcSize), srcSize,
                   DownAt(srcSize, dstSize, i));
  }

  lemma DownAtUnfold(s: nat, d: nat, i: nat)
    requires s > 0 && d > 0
    ensures DownAt(s, d, i) == DownPhase(DownStart(i, Ratio(s, d)), Ratio(s, d), Ratio(d, s), s)
  {
    RatioFacts(s, d);
  }

  /** An upscale phase of a table is usable, sums to 1 and has at most four taps. */
  lemma UpAtShape(srcSize: nat, dstSize: nat, i: nat)
    requires srcSize > 0 && dstSize > 0
    ensures var p := UpAt(srcSize, dstSize, i);
            PhaseOk(p, srcSize) && Sum(p.weights) == 1.0 && |p.indices| <= 4
  {
    UpPhaseShape(UpCentre(i, Ratio(srcSize, dstSize)), srcSize, UpAt(srcSize, dstSize, i));
  }

  /** The table is empty if either size is 0 and otherwise has dstSize
      usable phases whose weights sum to 1; a shrinking table has only
      positive weights, a growing or same-size one at most four taps per
      phase. */
  lemma CubicTableShape(srcSize: nat, dstSize: nat)
    ensures srcSize == 0 || dstSize == 0 ==> CubicTable(srcSize, dstSize) == []
    ensures srcSize > 0 && dstSize > 0 ==> TableOk(CubicTable(srcSize, dstSize), srcSize, dstSize)
    ensures forall i :: 0 <= i < |CubicTable(srcSize, dstSize)| ==>
              Sum(CubicTable(srcSize, dstSize)[i].weights) == 1.0
    ensures dstSize < srcSize ==>
              forall i, t :: 0 <= i < |CubicTable(srcSize, dstSize)| && 0 <= t < |CubicTable(srcSize, dstSize)[i].weights| ==>
                CubicTable(srcSize, dstSize)[i].weights[t] > 0.0
    ensures srcSize <= dstSize ==> forall i :: 0 <= i < |CubicTable(srcSize, dstSize)| ==>
              |CubicTable(srcSize, dstSize)[i].indices| <= 4
  {
    if srcSize > 0 && dstSize > 0 {
      RatioFacts(dstSize, srcSize);
      var t := CubicTable(srcSize, dstSize);
      if dstSize < srcSize {
        forall i | 0 <= i < dstSize
          ensures PhaseOk(t[i], srcSize) && Sum(t[i].weights) == 1.0
          ensures forall k :: 0 <= k < |t[i].weights| ==> t[i].weights[k] > 0.0
        {
          DownAtShape(srcSize, dstSize, i);
        }
      } else {
        forall i | 0 <= i < dstSize
          ensures PhaseOk(t[i], srcSize) && Sum(t[i].weights) == 1.0 && |t[i].indices| <= 4
        {
          UpAtShape(srcSize, dstSize, i);
        }
      }
    }
  }

  /** At an integer position the only non-zero tap is the position itself. */
  lemma IntegerPosTaps(i: nat, n: nat)
    requires i < n
    ensures UpTaps(i as real, i - 1, 4, n) == CubicPhase([i], [1.0])
  {
    var pos := i as real;
    var b := i - 1;
    assert UpTaps(pos, b, 0, n) == CubicPhase([], []);
    assert UpTaps(pos, b, 1, n) == CubicPhase([], []) by {
      assert pos - b as real == 1.0;
    }
    MirrorIdentity(i, n);
    assert UpTaps(pos, b, 2, n) == CubicPhase([i], [1.0]) by {
      assert pos - (b + 1) as real == 0.0;
    }
    assert UpTaps(pos, b, 3, n) == CubicPhase([i], [1.0]) by {
      assert pos - (b + 2) as real == -1.0;
    }
    assert UpTaps(pos, b, 4, n) == CubicPhase([i], [1.0]) by {
      assert pos - (b + 3) as real == -2.0;
      CubicKernelShape(-2.0);
    }
  }

  /** A single tap of weight 1 is already normalised. */
  lemma NormalizeUnitTap(i: nat, fallback: nat)
    ensures Normalize(CubicPhase([i], [1.0]), fallback) == CubicPhase([i], [1.0])
  {
    var ws := [1.0];
    assert Sum(ws) == 1.0 by {
      assert ws[..0] == [];
    }
    assert Scale(ws, 1.0 / 1.0) == ws;
  }

  /** The upscale phase at an integer position is the single tap (i, 1). */
  lemma IntegerPosPhase(i: nat, n: nat)
    requires i < n
    ensures UpPhase(i as real, n) == CubicPhase([i], [1.0])
  {
    var pos := i as real;
    assert pos.Floor == i;
    IntegerPosTaps(i, n);
    NormalizeUnitTap(i, MirrorIndex(RoundHalfAway(pos), n));
  }

  /** At unchanged size every phase is the single tap (i, 1). */
  lemma SameSizePhase(n: nat, i: nat)
    requires i < n
    ensures CubicTable(n, n)[i] == CubicPhase([i], [1.0])
  {
    RatioFacts(n, n);
    assert CubicTable(n, n)[i] == UpAt(n, n, i);
    assert UpCentre(i, Ratio(n, n)) == i as real;
    IntegerPosPhase(i, n);
  }

  // The imperative construction.

  /** Multiply every weight by k, in place. */
  method ScaleWeights(ws: seq<real>, k: real) returns (r: seq<real>)
    ensures r == Scale(ws, k)
  {
    r := ws;
    for j := 0 to |r|
      invariant |r| == |ws|
      invariant forall t :: 0 <= t < j ==> r[t] == ws[t] * k
      invariant forall t :: j <= t < |r| ==> r[t] == ws[t]
    {
      r := r[j := r[j] * k];
    }
  }

  method NormalizePhase(phase: CubicPhase, weightSum: real, fallback: nat) returns (p: CubicPhase)
    requires weightSum == Sum(phase.weights)
    ensures p == Normalize(phase, fallback)
  {
    if weightSum != 0.0 {
      var invSum := 1.0 / weightSum;
      var ws := ScaleWeights(phase.weights, invSum);
      p := CubicPhase(phase.indices, ws);
    } else {
      p := CubicPhase(phase.indices + [fallback], phase.weights + [1.0]);
    }
  }

  /** One downscale phase: the coverage loop, then normalisation. */
  method DownscalePhase(i: nat, scale: real, invScale: real, srcSize: nat) returns (p: CubicPhase)
    requires invScale > 0.0
    ensures p == DownPhase(DownStart(i, invScale), invScale, scale, srcSize)
  {
    var start := DownStart(i, invScale);
    var end := start + invScale;
    var phase, weightSum := CoverageTaps(start, end, scale, srcSize);
    p := NormalizePhase(phase, weightSum, MirrorIndex(RoundHalfAway(start), srcSize));
  }

  /** The coverage loop: walk from start to end one source sample at a
      time, pushing each sample's overlap as a tap. */
  method CoverageTaps(start: real, end: real, scale: real, srcSize: nat) returns (phase: CubicPhase, weightSum: real)
    ensures phase == DownTaps(start, end, start.Floor, scale, srcSize)
    ensures weightSum == Sum(phase.weights)
  {
    var current := start;
    var idx: int := current.Floor;
    weightSum := 0.0;
    phase := CubicPhase([], []);
    ghost var whole := DownTaps(start, end, start.Floor, scale, srcSize);
    while current < end
      invariant current < end ==> idx as real <= current
      invariant Join(phase, DownTaps(current, end, idx, scale, srcSize)) == whole
      invariant weightSum == Sum(phase.weights)
      decreases if current < end then end.Floor - idx + 1 else 0
    {
      var nextEdge := (idx + 1) as real;
      var next := MinReal(end, nextEdge);
      var coverage := next - current;
      DownLoopStep(phase, current, end, idx, scale, srcSize, whole);
      if coverage > 0.0 {
        var mapped := MirrorIndex(idx, srcSize);
        var weight := CoverageWeight(coverage, scale);
        phase := Join(phase, Tap(mapped, weight));
        weightSum := weightSum + weight;
      }
      current := next;
      idx := idx + 1;
    }
    JoinEmpty(phase);
  }

  /** One iteration of the tap loop of an upscale phase: a non-zero kernel
      weight appends a tap, a zero weight is skipped. */
  lemma UpLoopStep(phase: CubicPhase, pos: real, base: int, tap: nat, srcSize: nat)
    requires phase == UpTaps(pos, base, tap, srcSize)
    ensures var w := CubicKernel(pos - (base + tap) as real);
            var phase' := if w != 0.0 then Join(phase, Tap(MirrorIndex(base + tap, srcSize), w)) else phase;
            phase' == UpTaps(pos, base, tap + 1, srcSize) &&
            Sum(phase'.weights) == Sum(phase.weights) + (if w != 0.0 then w else 0.0)
  {
    var w := CubicKernel(pos - (base + tap) as real);
    if w != 0.0 {
      SumAppend(phase.weights, [w]);
      assert Sum([w]) == w by { assert [w][..0] == []; }
    }
  }

  /** The four-tap loop of one upscale phase. */
  method KernelTaps(srcPos: real, srcSize: nat) returns (phase: CubicPhase, weightSum: real)
    ensures phase == UpTaps(srcPos, srcPos.Floor - 1, 4, srcSize)
    ensures weightSum == Sum(phase.weights)
  {
    var base := srcPos.Floor - 1;
    weightSum := 0.0;
    phase := CubicPhase([], []);
    for tap := 0 to 4
      invariant phase == UpTaps(srcPos, base, tap, srcSize)
      invariant weightSum == Sum(phase.weights)
    {
      phase, weightSum := KernelTap(phase, weightSum, srcPos, base, tap, srcSize);
    }
  }

  /** One pass of the tap loop: the kernel weight of neighbour base + tap,
      pushed with its mirrored index unless it is zero. */
  method KernelTap(phase: CubicPhase, weightSum: real, srcPos: real, base: int, tap: nat, srcSize: nat)
    returns (phase': CubicPhase, weightSum': real)
    requires phase == UpTaps(srcPos, base, tap, srcSize) && weightSum == Sum(phase.weights)
    ensures phase' == UpTaps(srcPos, base, tap + 1, srcSize) && weightSum' == Sum(phase'.weights)
  {
    var idx := base + tap;
    var distance := srcPos - idx as real;
    var weight := CubicKernel(distance);
    UpLoopStep(phase, srcPos, base, tap, srcSize);
    phase', weightSum' := phase, weightSum;
    if weight != 0.0 {
      var mapped := MirrorIndex(idx, srcSize);
      phase' := Join(phase, Tap(mapped, weight));
      weightSum' := weightSum + weight;
    }
  }

  /** One upscale phase: the kernel taps, then normalisation with the sample
      nearest to the position as fallback. */
  method UpscalePhase(i: nat, invScale: real, srcSize: nat) returns (p: CubicPhase)
    ensures p == UpPhase(UpCentre(i, invScale), srcSize)
  {
    var srcPos := UpCentre(i, invScale);
    var phase, weightSum := KernelTaps(srcPos, srcSize);
    p := NormalizePhase(phase, weightSum, MirrorIndex(RoundHalfAway(srcPos), srcSize));
  }


  /** build_cubic_weight_table. */
  method BuildCubicWeightTable(srcSize: nat, dstSize: nat) returns (table: seq<CubicPhase>)
    ensures table == CubicTable(srcSize, dstSize)
  {
    table := [];
    if srcSize == 0 || dstSize == 0 {
      return;
    }
    var scale := Ratio(dstSize, srcSize);
    var invScale := Ratio(srcSize, dstSize);
    var downscale := scale < 1.0;
    RatioFacts(srcSize, dstSize);
    for i := 0 to dstSize
      invariant |table| == i
      invariant forall j :: 0 <= j < i ==> table[j] == PhaseAt(srcSize, dstSize, j)
    {
      var phase;
      if downscale {
        phase := DownscalePhase(i, scale, invScale, srcSize);
        DownPhaseAt(srcSize, dstSize, i, phase);
      } else {
        phase := UpscalePhase(i, invScale, srcSize);
      }
      table := table + [phase];
    }
    CubicTableChar(table, srcSize, dstSize);
  }

  /** Phase i of the table of the kind the sizes select. */
  function PhaseAt(srcSize: nat, dstSize: nat, i: nat): CubicPhase
    requires srcSize > 0 && dstSize > 0
  {
    if Ratio(dstSize, srcSize) < 1.0 then DownAt(srcSize, dstSize, i) else UpAt(srcSize, dstSize, i)
  }

  lemma DownPhaseAt(srcSize: nat, dstSize: nat, i: nat, p: CubicPhase)
    requires srcSize > 0 && dstSize > 0 && Ratio(dstSize, srcSize) < 1.0
    requires p == DownPhase(DownStart(i, Ratio(srcSize, dstSize)), Ratio(srcSize, dstSize), Ratio(dstSize, srcSize), srcSize)
    ensures p == PhaseAt(srcSize, dstSize, i)
  {
    DownAtUnfold(srcSize, dstSize, i);
  }

  /** A list of dstSize phases holding, at every i, the phase of the
      table's kind for output sample i, is the table. */
  lemma CubicTableChar(t: seq<CubicPhase>, srcSize: nat, dstSize: nat)
    requires srcSize > 0 && dstSize > 0 && |t| == dstSize
    requires forall j :: 0 <= j < dstSize ==> t[j] == PhaseAt(srcSize, dstSize, j)
    ensures t == CubicTable(srcSize, dstSize)
  {
  }

  // ---------------------------------------------------------------------
  // resample_cubic: a horizontal pass from the source into an intermediate
  // buffer of h rows of newWidth pixels, then a vertical pass into the
  // output. All three buffers are packed and interleaved.

  /** The sum over the first n taps of p of weight times sample, where sample
      j of the line sits at base + j * step of buf. */
  function Accum(buf: seq<real>, base: nat, step: nat, limit: nat, p: CubicPhase, n: nat): real
    requires 0 < limit && Off(step, limit - 1, base) < |buf|
    requires n <= |p.indices| && n <= |p.weights|
    requires forall t :: 0 <= t < n ==> p.indices[t] < limit
  {
    if n == 0 then 0.0
    else
      MulMonoLeft(p.indices[n - 1], limit - 1, step);
      Accum(buf, base, step, limit, p, n - 1) + p.weights[n - 1] * buf[Off(step, p.indices[n - 1], base)]
  }

  /** The line of samples at base, base + step, ... has its last sample inside
      a buffer of h * w * ch elements, when it is a row (step ch, w samples)
      or a column (step w * ch, h samples) of one channel. */
  lemma LineBounds(h: nat, w: nat, ch: nat, y: nat, x: nat, c: nat)
    requires y < h && x < w && c < ch
    ensures Off(ch, w - 1, Off(w * ch, y, c)) < h * w * ch
    ensures Off(w * ch, h - 1, Off(ch, x, c)) < h * w * ch
  {
    IdxAsOff(w, ch, y, w - 1, c);
    IdxBound(h, w, ch, y, w - 1, c);
    IdxAsOff(w, ch, h - 1, x, c);
    IdxBound(h, w, ch, h - 1, x, c);
  }

  predicate HorizontalOk(src: seq<real>, w: nat, h: nat, ch: nat, ht: seq<CubicPhase>) {
    w > 0 && ch > 0 && |ht| > 0 && |src| == h * w * ch && TableOk(ht, w, |ht|)
  }

  predicate VerticalOk(inter: seq<real>, nw: nat, h: nat, ch: nat, vt: seq<CubicPhase>) {
    nw > 0 && h > 0 && ch > 0 && |vt| > 0 && |inter| == h * nw * ch && TableOk(vt, h, |vt|)
  }

  /** Intermediate sample (y, x, c): phase ht[x] applied to channel c of
      source row y. */
  function HAt(src: seq<real>, w: nat, h: nat, ch: nat, ht: seq<CubicPhase>, y: nat, x: nat, c: nat): real
    requires HorizontalOk(src, w, h, ch, ht) && y < h && x < |ht| && c < ch
  {
    LineBounds(h, w, ch, y, 0, c);
    Accum(src, Off(w * ch, y, c), ch, w, ht[x], |ht[x].indices|)
  }

  /** Output sample (y, x, c): phase vt[y] applied to channel c of
      intermediate column x, clamped to [0, 1]. */
  function VAt(inter: seq<real>, nw: nat, h: nat, ch: nat, vt: seq<CubicPhase>, y: nat, x: nat, c: nat): real
    requires VerticalOk(inter, nw, h, ch, vt) && y < |vt| && x < nw && c < ch
  {
    LineBounds(h, nw, ch, 0, x, c);
    Clamp01(Accum(inter, Off(ch, x, c), nw * ch, h, vt[y], |vt[y].indices|))
  }

  /** The intermediate buffer, h rows of |ht| pixels. */
  function Horizontal(src: seq<real>, w: nat, h: nat, ch: nat, ht: seq<CubicPhase>): (r: seq<real>)
    requires HorizontalOk(src, w, h, ch, ht)
    ensures |r| == h * |ht| * ch
  {
    seq(h * |ht| * ch, k requires 0 <= k < h * |ht| * ch =>
      EncodeDecode(h, |ht|, ch, k);
      HAt(src, w, h, ch, ht, RowOf(|ht|, ch, k), ColOf(|ht|, ch, k), ChanOf(|ht|, ch, k)))
  }

  /** The output buffer, |vt| rows of nw pixels. */
  function Vertical(inter: seq<real>, nw: nat, h: nat, ch: nat, vt: seq<CubicPhase>): (r: seq<real>)
    requires VerticalOk(inter, nw, h, ch, vt)
    ensures |r| == |vt| * nw * ch
  {
    seq(|vt| * nw * ch, k requires 0 <= k < |vt| * nw * ch =>
      EncodeDecode(|vt|, nw, ch, k);
      VAt(inter, nw, h, ch, vt, RowOf(nw, ch, k), ColOf(nw, ch, k), ChanOf(nw, ch, k)))
  }

  /** A buffer holding HAt at every (y, x, c) is the intermediate buffer. */
  lemma HorizontalChar(buf: seq<real>, src: seq<real>, w: nat, h: nat, ch: nat, ht: seq<CubicPhase>)
    requires HorizontalOk(src, w, h, ch, ht) && |buf| == h * |ht| * ch
    requires forall y, x, c :: 0 <= y < h && 0 <= x < |ht| && 0 <= c < ch ==>
               Idx(|ht|, ch, y, x, c) < |buf| && buf[Idx(|ht|, ch, y, x, c)] == HAt(src, w, h, ch, ht, y, x, c)
    ensures buf == Horizontal(src, w, h, ch, ht)
  {
    var r := Horizontal(src, w, h, ch, ht);
    forall k | 0 <= k < |buf| ensures buf[k] == r[k] {
      EncodeDecode(h, |ht|, ch, k);
    }
  }

  /** A buffer holding VAt at every (y, x, c) is the output buffer. */
  lemma VerticalChar(buf: seq<real>, inter: seq<real>, nw: nat, h: nat, ch: nat, vt: seq<CubicPhase>)
    requires VerticalOk(inter, nw, h, ch, vt) && |buf| == |vt| * nw * ch
    requires forall y, x, c :: 0 <= y < |vt| && 0 <= x < nw && 0 <= c < ch ==>
               Idx(nw, ch, y, x, c) < |buf| && buf[Idx(nw, ch, y, x, c)] == VAt(inter, nw, h, ch, vt, y, x, c)
    ensures buf == Vertical(inter, nw, h, ch, vt)
  {
    var r := Vertical(inter, nw, h, ch, vt);
    forall k | 0 <= k < |buf| ensures buf[k] == r[k] {
      EncodeDecode(|vt|, nw, ch, k);
    }
  }

  /** Sample (y, x, c) of the intermediate buffer. */
  lemma HorizontalAt(src: seq<real>, w: nat, h: nat, ch: nat, ht: seq<CubicPhase>, y: nat, x: nat, c: nat)
    requires HorizontalOk(src, w, h, ch, ht) && y < h && x < |ht| && c < ch
    ensures Idx(|ht|, ch, y, x, c) < h * |ht| * ch
    ensures Horizontal(src, w, h, ch, ht)[Idx(|ht|, ch, y, x, c)] == HAt(src, w, h, ch, ht, y, x, c)
  {
    IdxBound(h, |ht|, ch, y, x, c);
    DecodeIdx(h, |ht|, ch, y, x, c);
  }

  /** Sample (y, x, c) of the output buffer. */
  lemma VerticalAt(inter: seq<real>, nw: nat, h: nat, ch: nat, vt: seq<CubicPhase>, y: nat, x: nat, c: nat)
    requires VerticalOk(inter, nw, h, ch, vt) && y < |vt| && x < nw && c < ch
    ensures Idx(nw, ch, y, x, c) < |vt| * nw * ch
    ensures Vertical(inter, nw, h, ch, vt)[Idx(nw, ch, y, x, c)] == VAt(inter, nw, h, ch, vt, y, x, c)
  {
    IdxBound(|vt|, nw, ch, y, x, c);
    DecodeIdx(|vt|, nw, ch, y, x, c);
  }

  /** resample_cubic as a value. The output has the requested size; its
      pixels are empty when a requested size is 0 or the input's channel
      count cannot be inferred, and otherwise the two cubic passes. */
  function Resampled(input: Image, newWidth: nat, newHeight: nat): Image {
    if newWidth == 0 || newHeight == 0 then Image(newWidth, newHeight, [])
    else
      var ch := ComputeChannels(input);
      if ch == 0 then Image(newWidth, newHeight, [])
      else
        var w, h := input.width, input.height;
        CubicTableShape(w, newWidth);
        CubicTableShape(h, newHeight);
        var inter := Horizontal(input.pixels, w, h, ch, CubicTable(w, newWidth));
        Image(newWidth, newHeight, Vertical(inter, newWidth, h, ch, CubicTable(h, newHeight)))
  }

  // ---------------------------------------------------------------------
  // What resample_cubic promises about its output.

  /** The output has the requested size. Its pixels are empty when a
      requested size is 0 or the channel count ch of the input is 0, and
      otherwise hold newWidth * newHeight * ch values, every one in [0, 1]. */
  lemma ResampledShape(input: Image, newWidth: nat, newHeight: nat)
    ensures var r := Resampled(input, newWidth, newHeight);
            var ch := ComputeChannels(input);
            r.width == newWidth && r.height == newHeight &&
            |r.pixels| == (if newWidth == 0 || newHeight == 0 || ch == 0 then 0 else newWidth * newHeight * ch)
    ensures var r := Resampled(input, newWidth, newHeight);
            forall k :: 0 <= k < |r.pixels| ==> 0.0 <= r.pixels[k] <= 1.0
  {
    var ch := ComputeChannels(input);
    if newWidth > 0 && newHeight > 0 && ch > 0 {
      var w, h := input.width, input.height;
      CubicTableShape(w, newWidth);
      CubicTableShape(h, newHeight);
      var inter := Horizontal(input.pixels, w, h, ch, CubicTable(w, newWidth));
      var out := Vertical(inter, newWidth, h, ch, CubicTable(h, newHeight));
      assert newHeight * newWidth * ch == newWidth * newHeight * ch;
      forall k | 0 <= k < |out| ensures 0.0 <= out[k] <= 1.0 {
        EncodeDecode(newHeight, newWidth, ch, k);
      }
    }
  }

  /** A line whose every sample holds v accumulates v times the weight sum. */
  lemma {:induction false} AccumConstant(buf: seq<real>, base: nat, step: nat, limit: nat, p: CubicPhase, n: nat, v: real)
    requires 0 < limit && Off(step, limit - 1, base) < |buf|
    requires n <= |p.indices| && n <= |p.weights|
    requires forall t :: 0 <= t < n ==> p.indices[t] < limit
    requires forall j :: 0 <= j < limit ==> Off(step, j, base) < |buf| && buf[Off(step, j, base)] == v
    ensures Accum(buf, base, step, limit, p, n) == Sum(p.weights[..n]) * v
  {
    if n > 0 {
      var ws, wl := p.weights[..n - 1], p.weights[n - 1];
      AccumConstant(buf, base, step, limit, p, n - 1, v);
      assert p.weights[..n][..n - 1] == ws;
      assert Sum(p.weights[..n]) == Sum(ws) + wl;
      assert Sum(ws) * v + wl * v == (Sum(ws) + wl) * v;
    }
  }

  /** Row y, channel c of a constant source is constant. */
  lemma ConstantRow(src: seq<real>, w: nat, h: nat, ch: nat, y: nat, c: nat, v: real)
    requires |src| == h * w * ch && y < h && c < ch
    requires forall k :: 0 <= k < |src| ==> src[k] == v
    ensures forall j :: 0 <= j < w ==> Off(ch, j, Off(w * ch, y, c)) < |src| && src[Off(ch, j, Off(w * ch, y, c))] == v
  {
    forall j | 0 <= j < w ensures Off(ch, j, Off(w * ch, y, c)) < |src| {
      IdxAsOff(w, ch, y, j, c);
      IdxBound(h, w, ch, y, j, c);
    }
  }

  /** Column x, channel c of a constant buffer is constant. */
  lemma ConstantColumn(buf: seq<real>, w: nat, h: nat, ch: nat, x: nat, c: nat, v: real)
    requires |buf| == h * w * ch && x < w && c < ch
    requires forall k :: 0 <= k < |buf| ==> buf[k] == v
    ensures forall j :: 0 <= j < h ==> Off(w * ch, j, Off(ch, x, c)) < |buf| && buf[Off(w * ch, j, Off(ch, x, c))] == v
  {
    forall j | 0 <= j < h ensures Off(w * ch, j, Off(ch, x, c)) < |buf| {
      IdxAsOff(w, ch, j, x, c);
      IdxBound(h, w, ch, j, x, c);
    }
  }

  lemma HAtConstant(src: seq<real>, w: nat, h: nat, ch: nat, ht: seq<CubicPhase>, y: nat, x: nat, c: nat, v: real)
    requires HorizontalOk(src, w, h, ch, ht) && y < h && x < |ht| && c < ch
    requires forall k :: 0 <= k < |src| ==> src[k] == v
    requires Sum(ht[x].weights) == 1.0
    ensures HAt(src, w, h, ch, ht, y, x, c) == v
  {
    var p := ht[x];
    LineBounds(h, w, ch, y, 0, c);
    ConstantRow(src, w, h, ch, y, c, v);
    AccumConstant(src, Off(w * ch, y, c), ch, w, p, |p.indices|, v);
    assert p.weights[..|p.indices|] == p.weights;
  }

  lemma VAtConstant(inter: seq<real>, nw: nat, h: nat, ch: nat, vt: seq<CubicPhase>, y: nat, x: nat, c: nat, v: real)
    requires VerticalOk(inter, nw, h, ch, vt) && y < |vt| && x < nw && c < ch
    requires forall k :: 0 <= k < |inter| ==> inter[k] == v
    requires Sum(vt[y].weights) == 1.0
    ensures VAt(inter, nw, h, ch, vt, y, x, c) == Clamp01(v)
  {
    var p := vt[y];
    LineBounds(h, nw, ch, 0, x, c);
    ConstantColumn(inter, nw, h, ch, x, c, v);
    AccumConstant(inter, Off(ch, x, c), nw * ch, h, p, |p.indices|, v);
    assert p.weights[..|p.indices|] == p.weights;
  }

  /** Weights that sum to 1 keep a constant image constant: every output
      value of a constant image of value v is v clamped to [0, 1]. */
  lemma ResampledConstant(input: Image, newWidth: nat, newHeight: nat, v: real)
    requires forall k :: 0 <= k < |input.pixels| ==> input.pixels[k] == v
    ensures var r := Resampled(input, newWidth, newHeight);
            forall k :: 0 <= k < |r.pixels| ==> r.pixels[k] == Clamp01(v)
  {
    var ch := ComputeChannels(input);
    if newWidth > 0 && newHeight > 0 && ch > 0 {
      var w, h := input.width, input.height;
      CubicTableShape(w, newWidth);
      CubicTableShape(h, newHeight);
      var ht, vt := CubicTable(w, newWidth), CubicTable(h, newHeight);
      var inter := Horizontal(input.pixels, w, h, ch, ht);
      forall k | 0 <= k < |inter| ensures inter[k] == v {
        EncodeDecode(h, newWidth, ch, k);
        HAtConstant(input.pixels, w, h, ch, ht, RowOf(newWidth, ch, k), ColOf(newWidth, ch, k), ChanOf(newWidth, ch, k), v);
      }
      var out := Vertical(inter, newWidth, h, ch, vt);
      forall k | 0 <= k < |out| ensures out[k] == Clamp01(v) {
        EncodeDecode(newHeight, newWidth, ch, k);
        VAtConstant(inter, newWidth, h, ch, vt, RowOf(newWidth, ch, k), ColOf(newWidth, ch, k), ChanOf(newWidth, ch, k), v);
      }
    }
  }

  /** A single tap of weight 1 reads its sample. */
  lemma AccumUnitTap(buf: seq<real>, base: nat, step: nat, limit: nat, i: nat)
    requires i < limit && Off(step, limit - 1, base) < |buf|
    ensures Off(step, i, base) < |buf|
    ensures Accum(buf, base, step, limit, CubicPhase([i], [1.0]), 1) == buf[Off(step, i, base)]
  {
    MulMonoLeft(i, limit - 1, step);
  }

  /** An intermediate sample whose phase is the single tap (x, 1) is the
      source sample itself. */
  lemma HAtUnitTap(src: seq<real>, w: nat, h: nat, ch: nat, ht: seq<CubicPhase>, y: nat, x: nat, c: nat)
    requires HorizontalOk(src, w, h, ch, ht) && y < h && x < |ht| && x < w && c < ch
    requires ht[x] == CubicPhase([x], [1.0])
    ensures Idx(w, ch, y, x, c) < |src|
    ensures HAt(src, w, h, ch, ht, y, x, c) == src[Idx(w, ch, y, x, c)]
  {
    LineBounds(h, w, ch, y, 0, c);
    AccumUnitTap(src, Off(w * ch, y, c), ch, w, x);
    IdxAsOff(w, ch, y, x, c);
    IdxBound(h, w, ch, y, x, c);
  }

  /** An output sample whose phase is the single tap (y, 1) is the clamped
      intermediate sample itself. */
  lemma VAtUnitTap(inter: seq<real>, w: nat, h: nat, ch: nat, vt: seq<CubicPhase>, y: nat, x: nat, c: nat)
    requires VerticalOk(inter, w, h, ch, vt) && y < |vt| && y < h && x < w && c < ch
    requires vt[y] == CubicPhase([y], [1.0])
    ensures Idx(w, ch, y, x, c) < |inter|
    ensures VAt(inter, w, h, ch, vt, y, x, c) == Clamp01(inter[Idx(w, ch, y, x, c)])
  {
    LineBounds(h, w, ch, 0, x, c);
    AccumUnitTap(inter, Off(ch, x, c), w * ch, h, y);
    IdxAsOff(w, ch, y, x, c);
    IdxBound(h, w, ch, y, x, c);
  }

  /** Resampling to the input's own size gives every value clamped to
      [0, 1], and so returns an image with values in [0, 1] unchanged. */
  lemma ResampledSameSize(input: Image)
    requires ComputeChannels(input) > 0
    ensures var r := Resampled(input, input.width, input.height);
            |r.pixels| == |input.pixels| &&
            forall k :: 0 <= k < |r.pixels| ==> r.pixels[k] == Clamp01(input.pixels[k])
    ensures (forall k :: 0 <= k < |input.pixels| ==> 0.0 <= input.pixels[k] <= 1.0) ==>
            Resampled(input, input.width, input.height) == input
  {
    var ch := ComputeChannels(input);
    var w, h, src := input.width, input.height, input.pixels;
    CubicTableShape(w, w);
    CubicTableShape(h, h);
    var inter := Horizontal(src, w, h, ch, CubicTable(w, w));
    forall k | 0 <= k < |inter| ensures inter[k] == src[k] {
      EncodeDecode(h, w, ch, k);
      SameSizePhase(w, ColOf(w, ch, k));
      HAtUnitTap(src, w, h, ch, CubicTable(w, w), RowOf(w, ch, k), ColOf(w, ch, k), ChanOf(w, ch, k));
    }
    assert inter == src;
    var out := Vertical(inter, w, h, ch, CubicTable(h, h));
    forall k | 0 <= k < |out| ensures out[k] == Clamp01(src[k]) {
      EncodeDecode(h, w, ch, k);
      SameSizePhase(h, RowOf(w, ch, k));
      VAtUnitTap(inter, w, h, ch, CubicTable(h, h), RowOf(w, ch, k), ColOf(w, ch, k), ChanOf(w, ch, k));
    }
    assert Resampled(input, w, h).pixels == out;
    if forall k :: 0 <= k < |src| ==> 0.0 <= src[k] <= 1.0 {
      assert out == src;
    }
  }

  /** The tap loop shared by both passes. */
  method AccumulateTaps(buf: seq<real>, base: nat, step: nat, limit: nat, p: CubicPhase) returns (acc: real)
    requires 0 < limit && Off(step, limit - 1, base) < |buf|
    requires |p.indices| <= |p.weights|
    requires forall t :: 0 <= t < |p.indices| ==> p.indices[t] < limit
    ensures acc == Accum(buf, base, step, limit, p, |p.indices|)
  {
    acc := 0.0;
    for tap := 0 to |p.indices|
      invariant acc == Accum(buf, base, step, limit, p, tap)
    {
      MulMonoLeft(p.indices[tap], limit - 1, step);
      var value := buf[Off(step, p.indices[tap], base)];
      acc := acc + p.weights[tap] * value;
    }
  }

  /** The channels of intermediate pixel (y, x). */
  method HorizontalPixel(src: seq<real>, w: nat, h: nat, ch: nat, ht: seq<CubicPhase>,
                         y: nat, x: nat, inter: array<real>)
    requires HorizontalOk(src, w, h, ch, ht) && y < h && x < |ht|
    requires inter.Length == h * |ht| * ch
    modifies inter
    ensures forall c :: 0 <= c < ch ==>
      Idx(|ht|, ch, y, x, c) < inter.Length && inter[Idx(|ht|, ch, y, x, c)] == HAt(src, w, h, ch, ht, y, x, c)
    ensures forall k :: 0 <= k < inter.Length && !(Idx(|ht|, ch, y, x, 0) <= k < Idx(|ht|, ch, y, x + 1, 0)) ==>
      inter[k] == old(inter[k])
  {
    IdxStep(|ht|, ch, y, x);
    IdxBound(h, |ht|, ch, y, x, 0);
    var phase := ht[x];
    for c := 0 to ch
      invariant forall c' :: 0 <= c' < c ==>
        Idx(|ht|, ch, y, x, c') < inter.Length && inter[Idx(|ht|, ch, y, x, c')] == HAt(src, w, h, ch, ht, y, x, c')
      invariant forall k :: 0 <= k < inter.Length && !(Idx(|ht|, ch, y, x, 0) <= k < Idx(|ht|, ch, y, x, c)) ==>
        inter[k] == old(inter[k])
    {
      LineBounds(h, w, ch, y, 0, c);
      var acc := AccumulateTaps(src, Off(w * ch, y, c), ch, w, phase);
      IdxBound(h, |ht|, ch, y, x, c);
      inter[Idx(|ht|, ch, y, x, c)] := acc;
    }
  }

  /** Row y of the horizontal pass. */
  method HorizontalRow(src: seq<real>, w: nat, h: nat, ch: nat, ht: seq<CubicPhase>,
                       y: nat, inter: array<real>)
    requires HorizontalOk(src, w, h, ch, ht) && y < h
    requires inter.Length == h * |ht| * ch
    modifies inter
    ensures forall x, c :: 0 <= x < |ht| && 0 <= c < ch ==>
      Idx(|ht|, ch, y, x, c) < inter.Length && inter[Idx(|ht|, ch, y, x, c)] == HAt(src, w, h, ch, ht, y, x, c)
    ensures forall k :: 0 <= k < inter.Length && !(Idx(|ht|, ch, y, 0, 0) <= k < Idx(|ht|, ch, y + 1, 0, 0)) ==>
      inter[k] == old(inter[k])
  {
    for x := 0 to |ht|
      invariant forall x', c :: 0 <= x' < x && 0 <= c < ch ==>
        Idx(|ht|, ch, y, x', c) < inter.Length && inter[Idx(|ht|, ch, y, x', c)] == HAt(src, w, h, ch, ht, y, x', c)
      invariant forall k :: 0 <= k < inter.Length && !(Idx(|ht|, ch, y, 0, 0) <= k < Idx(|ht|, ch, y, x, 0)) ==>
        inter[k] == old(inter[k])
    {
      IdxOrder(|ht|, ch, y, 0, 0, y, x + 1);
      forall x', c | 0 <= x' < x && 0 <= c < ch
        ensures Idx(|ht|, ch, y, x', c) < Idx(|ht|, ch, y, x, 0)
      {
        IdxOrder(|ht|, ch, y, x', c, y, x);
      }
      HorizontalPixel(src, w, h, ch, ht, y, x, inter);
    }
    IdxStep(|ht|, ch, y, |ht|);
  }

  /** The parallel_for over the source rows: the intermediate buffer. */
  method HorizontalPass(src: seq<real>, w: nat, h: nat, ch: nat, ht: seq<CubicPhase>) returns (inter: seq<real>)
    requires HorizontalOk(src, w, h, ch, ht)
    ensures inter == Horizontal(src, w, h, ch, ht)
  {
    var buffer := new real[|ht| * h * ch](_ => 0.0);
    assert |ht| * h * ch == h * |ht| * ch;
    for y := 0 to h
      invariant forall y', x, c :: 0 <= y' < y && 0 <= x < |ht| && 0 <= c < ch ==>
        Idx(|ht|, ch, y', x, c) < buffer.Length && buffer[Idx(|ht|, ch, y', x, c)] == HAt(src, w, h, ch, ht, y', x, c)
    {
      forall y', x, c | 0 <= y' < y && 0 <= x < |ht| && 0 <= c < ch
        ensures Idx(|ht|, ch, y', x, c) < Idx(|ht|, ch, y, 0, 0)
      {
        IdxOrder(|ht|, ch, y', x, c, y, 0);
      }
      HorizontalRow(src, w, h, ch, ht, y, buffer);
    }
    inter := buffer[..];
    HorizontalChar(inter, src, w, h, ch, ht);
  }

  /** The channels of output pixel (y, x). */
  method VerticalPixel(inter: seq<real>, nw: nat, h: nat, ch: nat, vt: seq<CubicPhase>,
                       y: nat, x: nat, out: array<real>)
    requires VerticalOk(inter, nw, h, ch, vt) && y < |vt| && x < nw
    requires out.Length == |vt| * nw * ch
    modifies out
    ensures forall c :: 0 <= c < ch ==>
      Idx(nw, ch, y, x, c) < out.Length && out[Idx(nw, ch, y, x, c)] == VAt(inter, nw, h, ch, vt, y, x, c)
    ensures forall k :: 0 <= k < out.Length && !(Idx(nw, ch, y, x, 0) <= k < Idx(nw, ch, y, x + 1, 0)) ==>
      out[k] == old(out[k])
  {
    IdxStep(nw, ch, y, x);
    IdxBound(|vt|, nw, ch, y, x, 0);
    var phase := vt[y];
    for c := 0 to ch
      invariant forall c' :: 0 <= c' < c ==>
        Idx(nw, ch, y, x, c') < out.Length && out[Idx(nw, ch, y, x, c')] == VAt(inter, nw, h, ch, vt, y, x, c')
      invariant forall k :: 0 <= k < out.Length && !(Idx(nw, ch, y, x, 0) <= k < Idx(nw, ch, y, x, c)) ==>
        out[k] == old(out[k])
    {
      LineBounds(h, nw, ch, 0, x, c);
      var acc := AccumulateTaps(inter, Off(ch, x, c), nw * ch, h, phase);
      IdxBound(|vt|, nw, ch, y, x, c);
      out[Idx(nw, ch, y, x, c)] := Clamp01(acc);
    }
  }

  /** Row y of the vertical pass. */
  method VerticalRow(inter: seq<real>, nw: nat, h: nat, ch: nat, vt: seq<CubicPhase>,
                     y: nat, out: array<real>)
    requires VerticalOk(inter, nw, h, ch, vt) && y < |vt|
    requires out.Length == |vt| * nw * ch
    modifies out
    ensures forall x, c :: 0 <= x < nw && 0 <= c < ch ==>
      Idx(nw, ch, y, x, c) < out.Length && out[Idx(nw, ch, y, x, c)] == VAt(inter, nw, h, ch, vt, y, x, c)
    ensures forall k :: 0 <= k < out.Length && !(Idx(nw, ch, y, 0, 0) <= k < Idx(nw, ch, y + 1, 0, 0)) ==>
      out[k] == old(out[k])
  {
    for x := 0 to nw
      invariant forall x', c :: 0 <= x' < x && 0 <= c < ch ==>
        Idx(nw, ch, y, x', c) < out.Length && out[Idx(nw, ch, y, x', c)] == VAt(inter, nw, h, ch, vt, y, x', c)
      invariant forall k :: 0 <= k < out.Length && !(Idx(nw, ch, y, 0, 0) <= k < Idx(nw, ch, y, x, 0)) ==>
        out[k] == old(out[k])
    {
      IdxOrder(nw, ch, y, 0, 0, y, x + 1);
      forall x', c | 0 <= x' < x && 0 <= c < ch
        ensures Idx(nw, ch, y, x', c) < Idx(nw, ch, y, x, 0)
      {
        IdxOrder(nw, ch, y, x', c, y, x);
      }
      VerticalPixel(inter, nw, h, ch, vt, y, x, out);
    }
    IdxStep(nw, ch, y, nw);
  }

  /** The parallel_for over the output rows, into the output pixels. */
  method VerticalPass(inter: seq<real>, nw: nat, h: nat, ch: nat, vt: seq<CubicPhase>, pixels: array<real>)
    requires VerticalOk(inter, nw, h, ch, vt) && pixels.Length == nw * |vt| * ch
    modifies pixels
    ensures pixels[..] == Vertical(inter, nw, h, ch, vt)
  {
    assert nw * |vt| * ch == |vt| * nw * ch;
    for y := 0 to |vt|
      invariant forall y', x, c :: 0 <= y' < y && 0 <= x < nw && 0 <= c < ch ==>
        Idx(nw, ch, y', x, c) < pixels.Length && pixels[Idx(nw, ch, y', x, c)] == VAt(inter, nw, h, ch, vt, y', x, c)
    {
      forall y', x, c | 0 <= y' < y && 0 <= x < nw && 0 <= c < ch
        ensures Idx(nw, ch, y', x, c) < Idx(nw, ch, y, 0, 0)
      {
        IdxOrder(nw, ch, y', x, c, y, 0);
      }
      VerticalRow(inter, nw, h, ch, vt, y, pixels);
    }
    VerticalChar(pixels[..], inter, nw, h, ch, vt);
  }

  /** resample_cubic. */
  method ResampleCubic(input: Image, newWidth: nat, newHeight: nat) returns (output: Image)
    ensures output == Resampled(input, newWidth, newHeight)
  {
    if newWidth == 0 || newHeight == 0 {
      return Image(newWidth, newHeight, []);
    }
    var channels := ComputeChannels(input);
    if channels == 0 {
      return Image(newWidth, newHeight, []);
    }
    var pixels := new real[newWidth * newHeight * channels](_ => 0.0);
    output := Image(newWidth, newHeight, pixels[..]);
    var w, h := input.width, input.height;
    if w == 0 || h == 0 {
      return;
    }
    var horizontalWeights := BuildCubicWeightTable(w, newWidth);
    var verticalWeights := BuildCubicWeightTable(h, newHeight);
    CubicTableShape(w, newWidth);
    CubicTableShape(h, newHeight);
    if |horizontalWeights| == 0 || |verticalWeights| == 0 {
      return;
    }
    var intermediate := HorizontalPass(input.pixels, w, h, channels, horizontalWeights);
    VerticalPass(intermediate, newWidth, h, channels, verticalWeights, pixels);
    output := Image(newWidth, newHeight, pixels[..]);
  }
}
