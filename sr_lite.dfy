// The SR-lite x2 upscaler of src/cpu/sr_lite.cpp: three 3 x 3 convolution
// layers over a packed three-channel float image, with mirrored borders, then
// a pixel shuffle that spreads each pixel's twelve layer-3 outputs over a
// 2 x 2 block of the output, clamped to [0, 1]. sr_lite_refine wraps it for
// caller views: convert the input into a packed float buffer, run the
// network, convert the result into the output view.
module SrLite {
  import opened Arith
  import opened Grid
  import opened Images
  import opened PixelOps
  import Resample
  import Resize
  import opened SrWeights

  // ---------------------------------------------------------------------
  // mirror_index

  /** sr_lite.cpp's copy of the reflecting border index: C's truncating
      remainder by the period 2 length - 2, moved into [0, period), folded
      back into [0, length). */
  function MirrorIndex(idx: int, length: nat): (r: nat)
    ensures length <= 1 ==> r == 0
    ensures length > 1 ==> r < length
  {
    if length <= 1 then 0
    else
      var period := length * 2 - 2;
      var value := CRem(idx, period);
      var value' := if value < 0 then value + period else value;
      if value' >= length then period - value' else value'
  }

  /** The two copies of mirror_index agree everywhere. */
  lemma MirrorAgreesResample(idx: int, length: nat)
    ensures MirrorIndex(idx, length) == Resample.MirrorIndex(idx, length)
  {
  }

  /** The mirror of the Python test suite: its `%` floors, which for a
      positive period is Dafny's Euclidean remainder, so the fix-up it
      copies never fires. */
  function ReferenceMirror(idx: int, length: nat): (r: nat)
    ensures length > 1 ==> r < length
  {
    if length <= 1 then 0
    else
      var period := 2 * length - 2;
      var value := idx % period;
      var value' := if value < 0 then value + period else value;
      if value' >= length then period - value' else value'
  }

  /** sr_lite's mirror_index computes the test suite's reference. */
  lemma MirrorAgreesReference(idx: int, length: nat)
    ensures MirrorIndex(idx, length) == ReferenceMirror(idx, length)
  {
    if length > 1 {
      CRemFixup(idx, 2 * length - 2);
    }
  }

  /** The window of a 3 x 3 convolution around position p of a line of n
      elements: tap k reads position p + k - 1 itself inside the line; past
      the first element it reads element 1 and past the last element n - 2. */
  lemma WindowTap(p: nat, k: nat, n: nat)
    requires p < n && k < 3 && n >= 2
    ensures MirrorIndex(p + k - 1, n) ==
            if p + k == 0 then 1 else if p + k - 1 == n then n - 2 else p + k - 1
  {
    MirrorAgreesResample(p + k - 1, n);
    if p + k == 0 || p + k - 1 == n {
      Resample.MirrorEdges(n);
    } else {
      Resample.MirrorIdentity(p + k - 1, n);
    }
  }

  /** The centre tap of the window is the position itself. */
  lemma CentreTap(p: nat, n: nat)
    requires p < n
    ensures MirrorIndex(p, n) == p
  {
    MirrorAgreesResample(p, n);
    if n > 1 {
      Resample.MirrorIdentity(p, n);
    }
  }

  // ---------------------------------------------------------------------
  // convolve3x3

  /** The arguments of one convolve3x3 call besides the two buffers. */
  datatype Conv = Conv(width: nat, height: nat, inChannels: nat, outChannels: nat,
                       weights: seq<real>, bias: seq<real>, relu: bool)

  /** The weight and bias tables hold a whole layer and the input n
      elements hold a whole image: what convolve3x3 reads without checking. */
  predicate Fits(cv: Conv, n: nat) {
    |cv.weights| >= ConvWeightCount(cv.outChannels, cv.inChannels) &&
    |cv.bias| >= cv.outChannels &&
    n >= cv.height * cv.width * cv.inChannels
  }

  /** The input element that channel ic of tap (ky, kx) of the window
      around (y, x) reads: a position of the image, whatever the pixel. */
  function TapIndex(cv: Conv, y: nat, x: nat, ky: nat, kx: nat, ic: nat): (k: nat)
    requires y < cv.height && x < cv.width && ky < 3 && kx < 3 && ic < cv.inChannels
    ensures k < cv.height * cv.width * cv.inChannels
    ensures k == Idx(cv.width, cv.inChannels, MirrorIndex(y + ky - 1, cv.height),
                     MirrorIndex(x + kx - 1, cv.width), ic)
  {
    var sy, sx := MirrorIndex(y + ky - 1, cv.height), MirrorIndex(x + kx - 1, cv.width);
    IdxBound(cv.height, cv.width, cv.inChannels, sy, sx, ic);
    Idx(cv.width, cv.inChannels, sy, sx, ic)
  }

  /** The product the accumulator of output channel oc adds for channel ic
      of tap (ky, kx). */
  function Term(cv: Conv, input: seq<real>, oc: nat, y: nat, x: nat, ky: nat, kx: nat, ic: nat): real
    requires Fits(cv, |input|) && oc < cv.outChannels && y < cv.height && x < cv.width
    requires ky < 3 && kx < 3 && ic < cv.inChannels
  {
    ConvIndexBound(oc, ky, kx, ic, cv.outChannels, cv.inChannels);
    cv.weights[ConvIndex(oc, ky, kx, ic, cv.inChannels)] * input[TapIndex(cv, y, x, ky, kx, ic)]
  }

  /** The products of all input channels of tap (ky, kx), in channel order. */
  function Terms(cv: Conv, input: seq<real>, oc: nat, y: nat, x: nat, ky: nat, kx: nat): (s: seq<real>)
    requires Fits(cv, |input|) && oc < cv.outChannels && y < cv.height && x < cv.width
    requires ky < 3 && kx < 3
    ensures |s| == cv.inChannels
  {
    seq(cv.inChannels, ic requires 0 <= ic < cv.inChannels => Term(cv, input, oc, y, x, ky, kx, ic))
  }

  /** The sum of a sequence, added from the front. */
  function Sum(s: seq<real>): real {
    if |s| == 0 then 0.0 else Sum(s[..|s| - 1]) + s[|s| - 1]
  }

  /** Adding one more element to a running sum. */
  lemma SumPrefix(s: seq<real>, i: nat)
    requires i < |s|
    ensures Sum(s[..i + 1]) == Sum(s[..i]) + s[i]
  {
    assert s[..i + 1][..i] == s[..i];
  }

  /** A sequence of zeros sums to zero. */
  lemma {:induction false} SumZero(s: seq<real>)
    requires forall i :: 0 <= i < |s| ==> s[i] == 0.0
    ensures Sum(s) == 0.0
  {
    if |s| > 0 {
      SumZero(s[..|s| - 1]);
    }
  }

  /** Replacing one element changes the sum by the difference. */
  lemma {:induction false} SumUpdate(s: seq<real>, j: nat, v: real)
    requires j < |s|
    ensures Sum(s[j := v]) == Sum(s) - s[j] + v
  {
    var n := |s| - 1;
    if j < n {
      assert s[j := v][..n] == s[..n][j := v];
      SumUpdate(s[..n], j, v);
    } else {
      assert s[j := v][..n] == s[..n];
    }
  }

  /** A sequence that is zero but at j sums to its element j. */
  lemma SumSingle(s: seq<real>, j: nat)
    requires j < |s| && forall i :: 0 <= i < |s| && i != j ==> s[i] == 0.0
    ensures Sum(s) == s[j]
  {
    SumUpdate(s, j, 0.0);
    SumZero(s[j := 0.0]);
  }

  /** Sum of the products of tap (ky, kx). */
  function TapSum(cv: Conv, input: seq<real>, oc: nat, y: nat, x: nat, ky: nat, kx: nat): real
    requires Fits(cv, |input|) && oc < cv.outChannels && y < cv.height && x < cv.width
    requires ky < 3 && kx < 3
  {
    Sum(Terms(cv, input, oc, y, x, ky, kx))
  }

  /** Sum over the first n taps of kernel row ky. */
  function RowSum(cv: Conv, input: seq<real>, oc: nat, y: nat, x: nat, ky: nat, n: nat): real
    requires Fits(cv, |input|) && oc < cv.outChannels && y < cv.height && x < cv.width
    requires ky < 3 && n <= 3
  {
    if n == 0 then 0.0 else RowSum(cv, input, oc, y, x, ky, n - 1) + TapSum(cv, input, oc, y, x, ky, n - 1)
  }

  /** Sum over the first n kernel rows. */
  function KernelSum(cv: Conv, input: seq<real>, oc: nat, y: nat, x: nat, n: nat): real
    requires Fits(cv, |input|) && oc < cv.outChannels && y < cv.height && x < cv.width
    requires n <= 3
  {
    if n == 0 then 0.0 else KernelSum(cv, input, oc, y, x, n - 1) + RowSum(cv, input, oc, y, x, n - 1, 3)
  }

  /** Output channel oc of pixel (y, x): the bias plus the weighted window,
      cut at zero when relu is set. */
  function ConvValue(cv: Conv, input: seq<real>, oc: nat, y: nat, x: nat): (v: real)
    requires Fits(cv, |input|) && oc < cv.outChannels && y < cv.height && x < cv.width
    ensures cv.relu ==> v >= 0.0
    ensures !cv.relu ==> v == cv.bias[oc] + KernelSum(cv, input, oc, y, x, 3)
    ensures cv.bias[oc] + KernelSum(cv, input, oc, y, x, 3) >= 0.0 ==>
              v == cv.bias[oc] + KernelSum(cv, input, oc, y, x, 3)
  {
    var acc := cv.bias[oc] + KernelSum(cv, input, oc, y, x, 3);
    if cv.relu && acc < 0.0 then 0.0 else acc
  }

  /** A kernel row's sum is the sum of its three tap sums. */
  lemma RowSumTaps(cv: Conv, input: seq<real>, oc: nat, y: nat, x: nat, ky: nat)
    requires Fits(cv, |input|) && oc < cv.outChannels && y < cv.height && x < cv.width && ky < 3
    ensures RowSum(cv, input, oc, y, x, ky, 3) ==
            TapSum(cv, input, oc, y, x, ky, 0) + TapSum(cv, input, oc, y, x, ky, 1) + TapSum(cv, input, oc, y, x, ky, 2)
  {
    assert RowSum(cv, input, oc, y, x, ky, 1) == TapSum(cv, input, oc, y, x, ky, 0);
    assert RowSum(cv, input, oc, y, x, ky, 2) == TapSum(cv, input, oc, y, x, ky, 0) + TapSum(cv, input, oc, y, x, ky, 1);
  }

  /** The kernel sum is the sum of the nine tap sums. */
  lemma KernelSumTaps(cv: Conv, input: seq<real>, oc: nat, y: nat, x: nat)
    requires Fits(cv, |input|) && oc < cv.outChannels && y < cv.height && x < cv.width
    ensures KernelSum(cv, input, oc, y, x, 3) ==
            TapSum(cv, input, oc, y, x, 0, 0) + TapSum(cv, input, oc, y, x, 0, 1) + TapSum(cv, input, oc, y, x, 0, 2) +
            TapSum(cv, input, oc, y, x, 1, 0) + TapSum(cv, input, oc, y, x, 1, 1) + TapSum(cv, input, oc, y, x, 1, 2) +
            TapSum(cv, input, oc, y, x, 2, 0) + TapSum(cv, input, oc, y, x, 2, 1) + TapSum(cv, input, oc, y, x, 2, 2)
  {
    RowSumTaps(cv, input, oc, y, x, 0);
    RowSumTaps(cv, input, oc, y, x, 1);
    RowSumTaps(cv, input, oc, y, x, 2);
    assert KernelSum(cv, input, oc, y, x, 1) == RowSum(cv, input, oc, y, x, 0, 3);
    assert KernelSum(cv, input, oc, y, x, 2) == RowSum(cv, input, oc, y, x, 0, 3) + RowSum(cv, input, oc, y, x, 1, 3);
  }

  /** A tap whose weights for output channel oc are all zero adds nothing. */
  lemma ZeroTap(cv: Conv, input: seq<real>, oc: nat, y: nat, x: nat, ky: nat, kx: nat)
    requires Fits(cv, |input|) && oc < cv.outChannels && y < cv.height && x < cv.width
    requires ky < 3 && kx < 3
    requires forall ic: nat :: ic < cv.inChannels && ConvIndex(oc, ky, kx, ic, cv.inChannels) < |cv.weights| ==>
               cv.weights[ConvIndex(oc, ky, kx, ic, cv.inChannels)] == 0.0
    ensures TapSum(cv, input, oc, y, x, ky, kx) == 0.0
  {
    var s := Terms(cv, input, oc, y, x, ky, kx);
    forall i | 0 <= i < |s| ensures s[i] == 0.0 {
      ConvIndexBound(oc, ky, kx, i, cv.outChannels, cv.inChannels);
    }
    SumZero(s);
  }

  /** When output channel oc has weights at tap (ty, tx) only, its kernel
      sum is that tap's sum. */
  lemma SingleTap(cv: Conv, input: seq<real>, oc: nat, y: nat, x: nat, ty: nat, tx: nat)
    requires Fits(cv, |input|) && oc < cv.outChannels && y < cv.height && x < cv.width
    requires ty < 3 && tx < 3
    requires forall ky: nat, kx: nat, ic: nat ::
               ky < 3 && kx < 3 && ic < cv.inChannels && (ky != ty || kx != tx) &&
               ConvIndex(oc, ky, kx, ic, cv.inChannels) < |cv.weights| ==>
                 cv.weights[ConvIndex(oc, ky, kx, ic, cv.inChannels)] == 0.0
    ensures KernelSum(cv, input, oc, y, x, 3) == TapSum(cv, input, oc, y, x, ty, tx)
  {
    KernelSumTaps(cv, input, oc, y, x);
    forall ky: nat, kx: nat | ky < 3 && kx < 3 && (ky != ty || kx != tx)
      ensures TapSum(cv, input, oc, y, x, ky, kx) == 0.0
    {
      ZeroTap(cv, input, oc, y, x, ky, kx);
    }
  }

  /** A whole output image of the layer, in the interleaved layout, so that
      element Idx(width, outChannels, y, x, oc) is ConvValue at (oc, y, x). */
  function LayerOut(cv: Conv, input: seq<real>): (out: seq<real>)
    requires Fits(cv, |input|)
    ensures |out| == cv.height * cv.width * cv.outChannels
  {
    var n := cv.height * cv.width * cv.outChannels;
    seq(n, k requires 0 <= k < n =>
      FactorsPositive(cv.height, cv.width, cv.outChannels, k);
      EncodeDecode(cv.height, cv.width, cv.outChannels, k);
      ConvValue(cv, input, ChanOf(cv.width, cv.outChannels, k),
                RowOf(cv.width, cv.outChannels, k), ColOf(cv.width, cv.outChannels, k)))
  }

  lemma FactorsPositive(a: nat, b: nat, c: nat, k: nat)
    requires k < a * b * c
    ensures a > 0 && b > 0 && c > 0
  {

  }

  /** Element (y, x, oc) of a layer's output. */
  lemma LayerOutAt(cv: Conv, input: seq<real>, y: nat, x: nat, oc: nat)
    requires Fits(cv, |input|) && oc < cv.outChannels && y < cv.height && x < cv.width
    ensures Idx(cv.width, cv.outChannels, y, x, oc) < |LayerOut(cv, input)|
    ensures LayerOut(cv, input)[Idx(cv.width, cv.outChannels, y, x, oc)] == ConvValue(cv, input, oc, y, x)
  {
    IdxBound(cv.height, cv.width, cv.outChannels, y, x, oc);
    DecodeIdx(cv.height, cv.width, cv.outChannels, y, x, oc);
  }

  /** With relu set, every output of the layer is non-negative. */
  lemma LayerOutRelu(cv: Conv, input: seq<real>, k: nat)
    requires Fits(cv, |input|) && cv.relu && k < |LayerOut(cv, input)|
    ensures LayerOut(cv, input)[k] >= 0.0
  {
  }

  /** The weight position of channel 0 of the next tap in the same row, and
      of the first tap of the next row. */
  lemma KernelAdvance(oc: nat, ky: nat, kx: nat, inChannels: nat)
    ensures ConvIndex(oc, ky, kx, 0, inChannels) + inChannels == ConvIndex(oc, ky, kx + 1, 0, inChannels)
    ensures ConvIndex(oc, ky, 3, 0, inChannels) == ConvIndex(oc, ky + 1, 0, 0, inChannels)
    ensures ConvIndex(oc, 0, 0, 0, inChannels) == oc * 3 * 3 * inChannels
  {
    var t := (oc * 3 + ky) * 3 + kx;
    assert (t + 1) * inChannels == t * inChannels + inChannels;
  }

  /** The product of the weight the kernel pointer reads and the input
      element the pixel pointer reads is the term of (ky, kx, ic). */
  lemma TermAt(cv: Conv, input: seq<real>, oc: nat, y: nat, x: nat, ky: nat, kx: nat, ic: nat,
               sy: nat, sx: nat, kernel: nat, pixel: nat)
    requires Fits(cv, |input|) && oc < cv.outChannels && y < cv.height && x < cv.width
    requires ky < 3 && kx < 3 && ic < cv.inChannels
    requires sy == MirrorIndex(y + ky - 1, cv.height) && sx == MirrorIndex(x + kx - 1, cv.width)
    requires kernel == ConvIndex(oc, ky, kx, 0, cv.inChannels)
    requires pixel == Off(cv.inChannels, sx, Off(cv.width * cv.inChannels, sy, 0))
    ensures kernel + ic < |cv.weights| && pixel + ic < |input|
    ensures cv.weights[kernel + ic] * input[pixel + ic] == Term(cv, input, oc, y, x, ky, kx, ic)
  {
    ConvIndexBound(oc, ky, kx, ic, cv.outChannels, cv.inChannels);
    IdxAsOff(cv.width, cv.inChannels, sy, sx, ic);
    assert pixel + ic == TapIndex(cv, y, x, ky, kx, ic);
  }

  /** terms holds the n products of the weights from kernel on and the
      samples from pixel on, pairwise. */
  predicate Products(terms: seq<real>, weights: seq<real>, kernel: nat, samples: seq<real>, pixel: nat, n: nat) {
    kernel + n <= |weights| && pixel + n <= |samples| && |terms| == n &&
    forall ic :: 0 <= ic < n ==> terms[ic] == weights[kernel + ic] * samples[pixel + ic]
  }

  /** The kernel and pixel pointers of tap (ky, kx) read, channel by
      channel, the factors of that tap's terms. */
  lemma TapTerms(cv: Conv, input: seq<real>, oc: nat, y: nat, x: nat, ky: nat, kx: nat,
                 sy: nat, sx: nat, kernel: nat, pixel: nat)
    requires Fits(cv, |input|) && oc < cv.outChannels && y < cv.height && x < cv.width
    requires ky < 3 && kx < 3
    requires sy == MirrorIndex(y + ky - 1, cv.height) && sx == MirrorIndex(x + kx - 1, cv.width)
    requires kernel == ConvIndex(oc, ky, kx, 0, cv.inChannels)
    requires pixel == Off(cv.inChannels, sx, Off(cv.width * cv.inChannels, sy, 0))
    ensures Products(Terms(cv, input, oc, y, x, ky, kx), cv.weights, kernel, input, pixel, cv.inChannels)
  {
    if cv.inChannels == 0 {
      assert pixel == 0;
    } else {
      TermAt(cv, input, oc, y, x, ky, kx, cv.inChannels - 1, sy, sx, kernel, pixel);
    }
    forall ic | 0 <= ic < cv.inChannels
      ensures Terms(cv, input, oc, y, x, ky, kx)[ic] == cv.weights[kernel + ic] * input[pixel + ic]
    {
      TermAt(cv, input, oc, y, x, ky, kx, ic, sy, sx, kernel, pixel);
    }
  }

  /** convolve3x3's innermost loop: the n products of one tap, weight by
      input element, added to the accumulator in channel order. */
  method AccumulateTap(input: array<real>, ghost s: seq<real>, weights: seq<real>, kernel: nat, pixel: nat, n: nat,
                       ghost terms: seq<real>, acc0: real) returns (acc: real)
    requires s == input[..] && Products(terms, weights, kernel, s, pixel, n)
    ensures acc == acc0 + Sum(terms)
  {
    acc := acc0;
    for ic := 0 to n
      invariant acc == acc0 + Sum(terms[..ic])
    {
      SumPrefix(terms, ic);
      acc := acc + weights[kernel + ic] * input[pixel + ic];
    }
    assert terms[..n] == terms;
  }

  /** The products of tap (ky, kx) added to the accumulator. */
  method AccumulateTapAt(input: array<real>, cv: Conv, oc: nat, ghost y: nat, ghost x: nat, ghost ky: nat, ghost kx: nat,
                         ghost sy: nat, ghost sx: nat, kernel: nat, pixel: nat, acc0: real) returns (acc: real)
    requires Fits(cv, input.Length) && oc < cv.outChannels && y < cv.height && x < cv.width && ky < 3 && kx < 3
    requires sy == MirrorIndex(y + ky - 1, cv.height) && sx == MirrorIndex(x + kx - 1, cv.width)
    requires kernel == ConvIndex(oc, ky, kx, 0, cv.inChannels)
    requires pixel == Off(cv.inChannels, sx, Off(cv.width * cv.inChannels, sy, 0))
    ensures acc == acc0 + TapSum(cv, input[..], oc, y, x, ky, kx)
  {
    ghost var s := input[..];
    TapTerms(cv, s, oc, y, x, ky, kx, sy, sx, kernel, pixel);
    acc := AccumulateTap(input, s, cv.weights, kernel, pixel, cv.inChannels, Terms(cv, s, oc, y, x, ky, kx), acc0);
  }

  /** convolve3x3's loop over the taps of kernel row ky, whose input row
      starts at row: each tap's products added in turn, the kernel pointer
      advancing by one tap. */
  method AccumulateRow(input: array<real>, cv: Conv, oc: nat, ghost y: nat, ghost x: nat, ghost ky: nat,
                       ghost sy: nat, row: nat, xIndices: seq<nat>, kernel0: nat, acc0: real)
    returns (acc: real, kernel: nat)
    requires Fits(cv, input.Length) && oc < cv.outChannels && y < cv.height && x < cv.width && ky < 3
    requires sy == MirrorIndex(y + ky - 1, cv.height) && row == Off(cv.width * cv.inChannels, sy, 0)
    requires xIndices == [MirrorIndex(x - 1, cv.width), MirrorIndex(x, cv.width), MirrorIndex(x + 1, cv.width)]
    requires kernel0 == ConvIndex(oc, ky, 0, 0, cv.inChannels)
    ensures kernel == ConvIndex(oc, ky + 1, 0, 0, cv.inChannels)
    ensures acc == acc0 + RowSum(cv, input[..], oc, y, x, ky, 3)
  {
    ghost var s := input[..];
    var inChannels := cv.inChannels;
    acc, kernel := acc0, kernel0;
    for kx := 0 to 3
      invariant kernel == ConvIndex(oc, ky, kx, 0, inChannels)
      invariant acc == acc0 + RowSum(cv, s, oc, y, x, ky, kx)
    {
      var sx := xIndices[kx];
      var pixel := Off(inChannels, sx, row);
      acc := AccumulateTapAt(input, cv, oc, y, x, ky, kx, sy, sx, kernel, pixel, acc);
      KernelAdvance(oc, ky, kx, inChannels);
      kernel := kernel + inChannels;
    }
    KernelAdvance(oc, ky, 3, inChannels);
  }

  /** The body of convolve3x3's output-channel loop before the store: the
      bias, then weight times input for each tap row, tap column and input
      channel in turn; then the cut at zero when relu is set. */
  method ConvolveAt(input: array<real>, cv: Conv, oc: nat, ghost y: nat, ghost x: nat,
                    yIndices: seq<nat>, xIndices: seq<nat>) returns (acc: real)
    requires Fits(cv, input.Length) && oc < cv.outChannels && y < cv.height && x < cv.width
    requires yIndices == [MirrorIndex(y - 1, cv.height), MirrorIndex(y, cv.height), MirrorIndex(y + 1, cv.height)]
    requires xIndices == [MirrorIndex(x - 1, cv.width), MirrorIndex(x, cv.width), MirrorIndex(x + 1, cv.width)]
    ensures acc == ConvValue(cv, input[..], oc, y, x)
  {
    ghost var s := input[..];
    var inChannels := cv.inChannels;
    var inRowStride := Off(inChannels, cv.width, 0);
    acc := cv.bias[oc];
    var kernel := oc * 3 * 3 * inChannels;
    KernelAdvance(oc, 0, 0, inChannels);
    for ky := 0 to 3
      invariant kernel == ConvIndex(oc, ky, 0, 0, inChannels)
      invariant acc == cv.bias[oc] + KernelSum(cv, s, oc, y, x, ky)
    {
      var sy := yIndices[ky];
      acc, kernel := AccumulateRow(input, cv, oc, y, x, ky, sy, Off(inRowStride, sy, 0), xIndices, kernel, acc);
    }
    if cv.relu && acc < 0.0 {
      acc := 0.0;
    }
  }

  /** A buffer whose first pos elements hold the spec and the rest their
      original values. */
  ghost predicate WrittenUpTo(out: seq<real>, spec: seq<real>, orig: seq<real>, pos: nat) {
    |out| == |orig| && pos <= |spec| <= |out| &&
    (forall k :: 0 <= k < pos ==> out[k] == spec[k]) &&
    (forall k :: pos <= k < |out| ==> out[k] == orig[k])
  }

  /** Storing the next element of the spec. */
  method StoreNext(output: array<real>, pos: nat, value: real, ghost spec: seq<real>, ghost orig: seq<real>)
    requires WrittenUpTo(output[..], spec, orig, pos) && pos < |spec| && value == spec[pos]
    modifies output
    ensures WrittenUpTo(output[..], spec, orig, pos + 1)
  {
    output[pos] := value;
  }

  /** convolve3x3's loop over the output channels of pixel (y, x), whose
      first output element is at outBase. */
  method ConvolvePixel(input: array<real>, output: array<real>, cv: Conv, y: nat, x: nat,
                       yIndices: seq<nat>, xIndices: seq<nat>, outBase: nat, ghost spec: seq<real>, ghost orig: seq<real>)
    requires input != output && Fits(cv, input.Length) && y < cv.height && x < cv.width
    requires spec == LayerOut(cv, input[..])
    requires yIndices == [MirrorIndex(y - 1, cv.height), MirrorIndex(y, cv.height), MirrorIndex(y + 1, cv.height)]
    requires xIndices == [MirrorIndex(x - 1, cv.width), MirrorIndex(x, cv.width), MirrorIndex(x + 1, cv.width)]
    requires outBase == Idx(cv.width, cv.outChannels, y, x, 0)
    requires WrittenUpTo(output[..], spec, orig, outBase)
    modifies output
    ensures WrittenUpTo(output[..], spec, orig, Idx(cv.width, cv.outChannels, y, x, cv.outChannels))
  {
    for oc := 0 to cv.outChannels
      invariant WrittenUpTo(output[..], spec, orig, Idx(cv.width, cv.outChannels, y, x, oc))
    {
      var acc := ConvolveAt(input, cv, oc, y, x, yIndices, xIndices);
      LayerOutAt(cv, input[..], y, x, oc);
      StoreNext(output, outBase + oc, acc, spec, orig);
    }
  }

  /** convolve3x3's loop over the pixels of output row y. */
  method ConvolveRow(input: array<real>, output: array<real>, cv: Conv, y: nat, yIndices: seq<nat>,
                     ghost spec: seq<real>, ghost orig: seq<real>)
    requires input != output && Fits(cv, input.Length) && y < cv.height
    requires spec == LayerOut(cv, input[..])
    requires yIndices == [MirrorIndex(y - 1, cv.height), MirrorIndex(y, cv.height), MirrorIndex(y + 1, cv.height)]
    requires WrittenUpTo(output[..], spec, orig, Idx(cv.width, cv.outChannels, y, 0, 0))
    modifies output
    ensures WrittenUpTo(output[..], spec, orig, Idx(cv.width, cv.outChannels, y + 1, 0, 0))
  {
    var width, outChannels := cv.width, cv.outChannels;
    var outRowStride := Off(outChannels, width, 0);
    for x := 0 to width
      invariant WrittenUpTo(output[..], spec, orig, Idx(width, outChannels, y, x, 0))
    {
      var xIndices := [MirrorIndex(x - 1, width), MirrorIndex(x, width), MirrorIndex(x + 1, width)];
      var outBase := Off(outChannels, x, Off(outRowStride, y, 0));
      IdxAsOff(width, outChannels, y, x, 0);
      ConvolvePixel(input, output, cv, y, x, yIndices, xIndices, outBase, spec, orig);
      IdxStep(width, outChannels, y, x);
    }
    IdxStep(width, outChannels, y, width);
  }

  /** convolve3x3. It does nothing for a null buffer or an empty image;
      otherwise, pixel by pixel in row-major order and output channel by
      output channel, it stores ConvValue, so that the first
      height * width * outChannels elements of the output become the layer's
      output image and the rest of the buffer is left alone. */
  method Convolve3x3(input: array?<real>, output: array?<real>, cv: Conv)
    requires input != null && output != null ==>
               input != output && Fits(cv, input.Length) &&
               output.Length >= cv.height * cv.width * cv.outChannels
    modifies output
    ensures output != null && (input == null || cv.width == 0 || cv.height == 0) ==> output[..] == old(output[..])
    ensures input != null && output != null && cv.width > 0 && cv.height > 0 ==>
              var n := cv.height * cv.width * cv.outChannels;
              output[..n] == LayerOut(cv, input[..]) && output[n..] == old(output[n..])
  {
    if input == null || output == null || cv.width == 0 || cv.height == 0 {
      return;
    }
    var width, height, outChannels := cv.width, cv.height, cv.outChannels;
    ghost var spec := LayerOut(cv, input[..]);
    ghost var orig := output[..];
    IdxStep(width, outChannels, 0, 0);
    for y := 0 to height
      invariant WrittenUpTo(output[..], spec, orig, Idx(width, outChannels, y, 0, 0))
    {
      var yIndices := [MirrorIndex(y - 1, height), MirrorIndex(y, height), MirrorIndex(y + 1, height)];
      ConvolveRow(input, output, cv, y, yIndices, spec, orig);
    }
    IdxStep(width, outChannels, height, 0);
    var n := height * width * outChannels;
    assert output[..n] == spec;
  }

  // ---------------------------------------------------------------------
  // pixel_shuffle_r2

  /** Sub-pixel sub (0 top-left, 1 top-right, 2 bottom-left, 3 bottom-right)
      of input row y and column x lands on output row 2 y + sub / 2 and
      output column 2 x + sub % 2. */
  function ShuffleRow(y: nat, sub: nat): nat { y * UpscaleFactor + sub / UpscaleFactor }
  function ShuffleCol(x: nat, sub: nat): nat { x * UpscaleFactor + sub % UpscaleFactor }

  /** The sub-pixel of an output position. */
  function SubOf(oy: nat, ox: nat): nat { (oy % 2) * 2 + ox % 2 }

  /** The sub-pixel mapping is a bijection from an h x w grid of 2 x 2
      blocks onto the 2h x 2w grid. */
  lemma ShuffleBijection(h: nat, w: nat, y: nat, x: nat, sub: nat, oy: nat, ox: nat)
    requires y < h && x < w && sub < 4 && oy < 2 * h && ox < 2 * w
    ensures ShuffleRow(y, sub) < 2 * h && ShuffleCol(x, sub) < 2 * w
    ensures oy / 2 < h && ox / 2 < w && SubOf(oy, ox) < 4
    ensures ShuffleRow(oy / 2, SubOf(oy, ox)) == oy && ShuffleCol(ox / 2, SubOf(oy, ox)) == ox
    ensures ShuffleRow(y, sub) == oy && ShuffleCol(x, sub) == ox <==> y == oy / 2 && x == ox / 2 && sub == SubOf(oy, ox)
  {
  }

  /** The flat output element sub-pixel sub of channel c of (y, x) is
      stored at. */
  function ShuffleTarget(w: nat, channels: nat, y: nat, x: nat, c: nat, sub: nat): nat {
    Idx(w * UpscaleFactor, channels, ShuffleRow(y, sub), ShuffleCol(x, sub), c)
  }

  /** Each output element is the target of exactly one input sub-pixel:
      distinct sources have distinct targets, and every element of the
      2h x 2w x channels output is a target. */
  lemma ShuffleTargetInjective(h: nat, w: nat, channels: nat, y: nat, x: nat, c: nat, sub: nat,
                               y2: nat, x2: nat, c2: nat, sub2: nat)
    requires y < h && x < w && c < channels && sub < 4 && y2 < h && x2 < w && c2 < channels && sub2 < 4
    requires ShuffleTarget(w, channels, y, x, c, sub) == ShuffleTarget(w, channels, y2, x2, c2, sub2)
    ensures y == y2 && x == x2 && c == c2 && sub == sub2
  {
    ShuffleBijection(h, w, y, x, sub, ShuffleRow(y, sub), ShuffleCol(x, sub));
    ShuffleBijection(h, w, y2, x2, sub2, ShuffleRow(y2, sub2), ShuffleCol(x2, sub2));
    DecodeIdx(2 * h, 2 * w, channels, ShuffleRow(y, sub), ShuffleCol(x, sub), c);
    DecodeIdx(2 * h, 2 * w, channels, ShuffleRow(y2, sub2), ShuffleCol(x2, sub2), c2);
  }

  lemma ShuffleTargetOnto(h: nat, w: nat, channels: nat, k: nat)
    requires k < (2 * h) * (2 * w) * channels
    ensures var oy, ox, c := RowOf(2 * w, channels, k), ColOf(2 * w, channels, k), ChanOf(2 * w, channels, k);
            oy / 2 < h && ox / 2 < w && c < channels && SubOf(oy, ox) < 4 &&
            ShuffleTarget(w, channels, oy / 2, ox / 2, c, SubOf(oy, ox)) == k
  {
    FactorsPositive(2 * h, 2 * w, channels, k);
    EncodeDecode(2 * h, 2 * w, channels, k);
    var oy, ox := RowOf(2 * w, channels, k), ColOf(2 * w, channels, k);
    ShuffleBijection(h, w, oy / 2, ox / 2, SubOf(oy, ox), oy, ox);
  }

  /** The shuffled image: output element (oy, ox, c) is sub-pixel
      SubOf(oy, ox) of channel c of input pixel (oy / 2, ox / 2), clamped to
      [0, 1]. */
  function Shuffled(input: seq<real>, w: nat, h: nat, channels: nat): (out: seq<real>)
    requires |input| >= h * w * (channels * 4)
    ensures |out| == (2 * h) * (2 * w) * channels
    ensures forall k :: 0 <= k < |out| ==> 0.0 <= out[k] <= 1.0
  {
    var n := (2 * h) * (2 * w) * channels;
    seq(n, k requires 0 <= k < n =>
      ShuffleTargetOnto(h, w, channels, k);
      var oy, ox, c := RowOf(2 * w, channels, k), ColOf(2 * w, channels, k), ChanOf(2 * w, channels, k);
      IdxBound(h, w, channels * 4, oy / 2, ox / 2, c * 4 + SubOf(oy, ox));
      Clamp01(input[Idx(w, channels * 4, oy / 2, ox / 2, c * 4 + SubOf(oy, ox))]))
  }

  /** Sub-pixel sub of channel c of (y, x), clamped, is at its target. */
  lemma ShuffledAt(input: seq<real>, w: nat, h: nat, channels: nat, y: nat, x: nat, c: nat, sub: nat)
    requires |input| >= h * w * (channels * 4)
    requires y < h && x < w && c < channels && sub < 4
    ensures Idx(w, channels * 4, y, x, c * 4 + sub) < |input|
    ensures ShuffleTarget(w, channels, y, x, c, sub) < |Shuffled(input, w, h, channels)|
    ensures Shuffled(input, w, h, channels)[ShuffleTarget(w, channels, y, x, c, sub)]
              == Clamp01(input[Idx(w, channels * 4, y, x, c * 4 + sub)])
  {
    var oy, ox := ShuffleRow(y, sub), ShuffleCol(x, sub);
    ShuffleBijection(h, w, y, x, sub, oy, ox);
    IdxBound(2 * h, 2 * w, channels, oy, ox, c);
    DecodeIdx(2 * h, 2 * w, channels, oy, ox, c);
    IdxBound(h, w, channels * 4, y, x, c * 4 + sub);
  }

  /** Elements in `written` hold the spec, all others their original value. */
  ghost predicate Shuffling(out: seq<real>, spec: seq<real>, orig: seq<real>, written: set<nat>) {
    |out| == |orig| && |spec| <= |out| &&
    (forall k :: k in written ==> k < |spec| && out[k] == spec[k]) &&
    (forall k :: 0 <= k < |out| && k !in written ==> out[k] == orig[k])
  }

  /** The sources before (y, x, c, sub) in the loops' order. */
  predicate Before(y2: nat, x2: nat, c2: nat, sub2: nat, y: nat, x: nat, c: nat, sub: nat) {
    y2 < y || (y2 == y && (x2 < x || (x2 == x && (c2 < c || (c2 == c && sub2 < sub)))))
  }

  /** Every source before (y, x, c, sub) has its target in `written`. */
  ghost predicate ShuffledUpTo(written: set<nat>, w: nat, channels: nat, y: nat, x: nat, c: nat, sub: nat) {
    forall y2: nat, x2: nat, c2: nat, sub2: nat ::
      x2 < w && c2 < channels && sub2 < 4 && Before(y2, x2, c2, sub2, y, x, c, sub) ==>
        ShuffleTarget(w, channels, y2, x2, c2, sub2) in written
  }

  /** One store of pixel_shuffle_r2's innermost loop. */
  method StoreSubPixel(output: array<real>, p: nat, value: real, ghost spec: seq<real>, ghost orig: seq<real>,
                       ghost written: set<nat>) returns (ghost written': set<nat>)
    requires Shuffling(output[..], spec, orig, written) && p < |spec| && value == spec[p]
    modifies output
    ensures Shuffling(output[..], spec, orig, written') && written' == written + {p}
  {
    output[p] := value;
    written' := written + {p};
  }

  /** pixel_shuffle_r2. It does nothing for a null buffer or an empty image;
      otherwise every element of the (2h) x (2w) x channels output becomes
      its shuffled, clamped source, and the rest of the buffer is left
      alone. */
  method PixelShuffleR2(input: array?<real>, output: array?<real>, width: nat, height: nat, channels: nat)
    requires input != null && output != null ==>
               input != output && input.Length >= height * width * (channels * 4) &&
               output.Length >= (2 * height) * (2 * width) * channels
    modifies output
    ensures output != null && (input == null || width == 0 || height == 0) ==> output[..] == old(output[..])
    ensures input != null && output != null && width > 0 && height > 0 ==>
              var n := (2 * height) * (2 * width) * channels;
              output[..n] == Shuffled(input[..], width, height, channels) && output[n..] == old(output[n..])
  {
    if input == null || output == null || width == 0 || height == 0 {
      return;
    }
    var inChannels := channels * UpscaleFactor * UpscaleFactor;
    var outWidth := width * UpscaleFactor;
    ghost var spec := Shuffled(input[..], width, height, channels);
    ghost var orig := output[..];
    ghost var written: set<nat> := {};
    for y := 0 to height
      invariant Shuffling(output[..], spec, orig, written)
      invariant ShuffledUpTo(written, width, channels, y, 0, 0, 0)
    {
      for x := 0 to width
        invariant Shuffling(output[..], spec, orig, written)
        invariant ShuffledUpTo(written, width, channels, y, x, 0, 0)
      {
        var inPixel := (y * width + x) * inChannels;
        for c := 0 to channels
          invariant Shuffling(output[..], spec, orig, written)
          invariant ShuffledUpTo(written, width, channels, y, x, c, 0)
        {
          var base := c * UpscaleFactor * UpscaleFactor;
          for sub := 0 to UpscaleFactor * UpscaleFactor
            invariant Shuffling(output[..], spec, orig, written)
            invariant ShuffledUpTo(written, width, channels, y, x, c, sub)
          {
            var oy := y * UpscaleFactor + sub / UpscaleFactor;
            var ox := x * UpscaleFactor + sub % UpscaleFactor;
            ShuffledAt(input[..], width, height, channels, y, x, c, sub);
            var value := input[inPixel + base + sub];
            value := Clamp01(value);
            written := StoreSubPixel(output, (oy * outWidth + ox) * channels + c, value, spec, orig, written);
          }
        }
      }
    }
    var n := (2 * height) * (2 * width) * channels;
    forall k | 0 <= k < n ensures output[k] == spec[k] {
      ShuffleTargetOnto(height, width, channels, k);
    }
    assert output[..n] == spec;
  }

  // ---------------------------------------------------------------------
  // sr_lite_forward

  /** The three layers of the network for a width x height image. */
  function Layer1(w: nat, h: nat): Conv { Conv(w, h, InputChannels, Conv1OutChannels, Conv1Weights(), Conv1Bias(), true) }
  function Layer2(w: nat, h: nat): Conv { Conv(w, h, Conv1OutChannels, Conv2OutChannels, Conv2Weights(), Conv2Bias(), true) }
  function Layer3(w: nat, h: nat): Conv { Conv(w, h, Conv2OutChannels, Conv3OutChannels, Conv3Weights(), Conv3Bias(), false) }

  /** The network's output for a packed three-channel image: the three
      layers in turn, then the pixel shuffle. */
  function Forward(input: seq<real>, w: nat, h: nat): (out: seq<real>)
    requires |input| >= h * w * InputChannels
    ensures |out| == (2 * h) * (2 * w) * InputChannels
    ensures forall k :: 0 <= k < |out| ==> 0.0 <= out[k] <= 1.0
  {
    var stage1 := LayerOut(Layer1(w, h), input);
    var stage2 := LayerOut(Layer2(w, h), stage1);
    var stage3 := LayerOut(Layer3(w, h), stage2);
    Shuffled(stage3, w, h, InputChannels)
  }

  /** sr_lite_forward. It does nothing for a null buffer or an empty image;
      otherwise it runs the three layers into zeroed scratch buffers and
      shuffles the last one into the output, whose first
      (2 height) x (2 width) x 3 elements become Forward of the input. */
  method SrLiteForward(input: array?<real>, output: array?<real>, width: nat, height: nat)
    requires input != null && output != null ==>
               input != output && input.Length >= height * width * InputChannels &&
               output.Length >= (2 * height) * (2 * width) * InputChannels
    modifies output
    ensures output != null && (input == null || width == 0 || height == 0) ==> output[..] == old(output[..])
    ensures input != null && output != null && width > 0 && height > 0 ==>
              var n := (2 * height) * (2 * width) * InputChannels;
              output[..n] == Forward(input[..], width, height) && output[n..] == old(output[n..])
  {
    if input == null || output == null || width == 0 || height == 0 {
      return;
    }
    ghost var s := input[..];
    var stage1 := new real[width * height * Conv1OutChannels](_ => 0.0);
    var stage2 := new real[width * height * Conv2OutChannels](_ => 0.0);
    var stage3 := new real[width * height * Conv3OutChannels](_ => 0.0);
    assert width * height == height * width;
    Convolve3x3(input, stage1, Layer1(width, height));
    assert stage1[..] == LayerOut(Layer1(width, height), s);
    Convolve3x3(stage1, stage2, Layer2(width, height));
    assert stage2[..] == LayerOut(Layer2(width, height), stage1[..]);
    Convolve3x3(stage2, stage3, Layer3(width, height));
    assert stage3[..] == LayerOut(Layer3(width, height), stage2[..]);
    PixelShuffleR2(stage3, output, width, height, InputChannels);
  }

  // ---------------------------------------------------------------------
  // sr_lite_refine

  /** The formats sr_lite_refine's supports_type lets through. */
  predicate SupportsType(t: PixelType) {
    t == U8_RGB || t == U8_RGBA || t == F32_RGB
  }

  /** The views sr_lite_refine works on: both valid, the input not empty,
      the output exactly twice the input's size in both directions, both
      in a supported format. */
  predicate RefineAccepts(input: CpuImage, output: CpuImage) {
    ValidateImage(input) && ValidateImage(output) &&
    input.width > 0 && input.height > 0 &&
    output.width == input.width * UpscaleFactor && output.height == input.height * UpscaleFactor &&
    SupportsType(input.pixelType) && SupportsType(output.pixelType)
  }

  /** The image sr_lite_refine computes for a valid input view: the
      network's output for the view's packed float image, twice the size. */
  function Refined(input: CpuImage): (img: Image)
    requires ValidateImage(input) && Backed(input)
    reads Objs(input.data)
    ensures img.width == 2 * input.width && img.height == 2 * input.height
    ensures |img.pixels| == img.height * img.width * 3
    ensures forall k :: 0 <= k < |img.pixels| ==> 0.0 <= img.pixels[k] <= 1.0
  {
    Image(2 * input.width, 2 * input.height,
          Forward(Resize.ViewImage(input).pixels, input.width, input.height))
  }

  /** sr_lite_refine's low_res step: the input view converted by
      convert_image into a zeroed packed buffer seen as an F32_RGB view of
      stride width * 3 * sizeof(float). For a valid view in a supported
      format that conversion cannot fail, and the buffer then holds the
      view's packed float image. */
  method LoadLowRes(input: CpuImage) returns (lowRes: array<real>)
    requires ValidateImage(input) && Backed(input) && SupportsType(input.pixelType)
    ensures fresh(lowRes)
    ensures lowRes[..] == Resize.ViewImage(input).pixels
  {
    var w, h := input.width, input.height;
    var srcStride := w * InputChannels * SizeOfFloat;
    lowRes := new real[w * h * InputChannels](_ => 0.0);
    var view := CpuImage(F32_RGB, w, h, srcStride, Floats(lowRes));
    ghost var zeros := lowRes[..];
    assert |zeros| == h * w * 3;
    assert srcStride / SizeOfFloat == w * 3;
    Resize.PackedFits(h, w, lowRes.Length);
    var converted := ConvertImage(input, view);
    assert converted;
    match input.data {
      case Bytes(b) =>
        Resize.ConvertedIsPacked(b[..], input.strideBytes, PixelChannels(input.pixelType), zeros, w, h, U8ToFloat);
      case Floats(f) =>
        Resize.CopiedIsPacked(f[..], input.strideBytes / SizeOfFloat, zeros, w, h);
    }
  }

  /** sr_lite_refine. It fails, writing nothing, unless both views are
      valid, the input is not empty, the output is twice its size and both
      formats are supported. Then it converts the input into a packed float
      image, runs sr_lite_forward on it and converts the result into the
      output view: every output row receives the matching row of Refined in
      the output's format, and the padding is kept. The input is copied
      before the output is written, so the two views may share memory. */
  method SrLiteRefine(input: CpuImage, output: CpuImage) returns (ok: bool)
    requires Backed(input) && Backed(output)
    modifies Objs(output.data)
    ensures ok <==> RefineAccepts(input, output)
    ensures !ok ==> unchanged(Objs(output.data))
    ensures ok && output.pixelType == U8_RGB ==>
      output.data.bytes[..] == Resize.BytesBack(old(Refined(input)), 3, 0, old(output.data.bytes[..]), output.strideBytes)
    ensures ok && output.pixelType == U8_RGBA ==>
      output.data.bytes[..] == Resize.BytesBack(old(Refined(input)), 4, 255, old(output.data.bytes[..]), output.strideBytes)
    ensures ok && output.pixelType == F32_RGB ==>
      output.data.floats[..] == Resize.FloatsBack(old(Refined(input)), old(output.data.floats[..]), output.strideBytes / SizeOfFloat)
  {
    if !ValidateImage(input) || !ValidateImage(output) {
      return false;
    }
    if input.width == 0 || input.height == 0 {
      return false;
    }
    if output.width != input.width * UpscaleFactor || output.height != input.height * UpscaleFactor {
      return false;
    }
    if !SupportsType(input.pixelType) || !SupportsType(output.pixelType) {
      return false;
    }
    var lowRes := LoadLowRes(input);
    var outWidth, outHeight := output.width, output.height;
    var dstStride := outWidth * InputChannels * SizeOfFloat;
    var highRes := new real[outWidth * outHeight * InputChannels](_ => 0.0);
    assert highRes.Length == (2 * input.height) * (2 * input.width) * InputChannels;
    SrLiteForward(lowRes, highRes, input.width, input.height);
    assert highRes[..] == Refined(input).pixels;
    var highView := CpuImage(F32_RGB, outWidth, outHeight, dstStride, Floats(highRes));
    assert dstStride / SizeOfFloat == outWidth * 3;
    Resize.PackedFits(outHeight, outWidth, highRes.Length);
    ok := ConvertImage(highView, output);
  }
}
