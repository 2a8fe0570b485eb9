// The sanitising orchestrator of src/common/sanitize.cpp: a validation
// gate, then a fixed chain of stages on a packed float image (quarter-size
// cubic resample, 6-bit dither, DCT attenuation, a low-resolution blend, an
// upscale and a super-resolution pass) whose results are blended and
// written back into the caller's view.

module Sanitize {
  import opened Arith
  import opened Grid
  import opened Images
  import opened PixelOps
  import opened Resample
  import Resize
  import Bitdepth
  import Dct
  import SrLite

  // ---------------------------------------------------------------------
  // Pixels and images.

  /** sanitize_pixel: std::clamp to [0, 1]. */
  function SanitizePixel(value: real): (r: real)
    ensures 0.0 <= r <= 1.0
    ensures r == value <==> 0.0 <= value <= 1.0
    ensures value < 0.0 ==> r == 0.0
    ensures value > 1.0 ==> r == 1.0
  {
    Clamp01(value)
  }

  /** The image sanitize_image returns: the same size, every value clamped. */
  function Clamped(input: Image): (r: Image)
    ensures r.width == input.width && r.height == input.height && |r.pixels| == |input.pixels|
    ensures forall k :: 0 <= k < |r.pixels| ==> 0.0 <= r.pixels[k] <= 1.0
  {
    Image(input.width, input.height, seq(|input.pixels|, k requires 0 <= k < |input.pixels| => SanitizePixel(input.pixels[k])))
  }

  /** Clamping keeps every value already in [0, 1] and moves every other
      one, so a clamped image is a fixed point of clamping. */
  lemma ClampedFixedPoints(input: Image)
    ensures Clamped(input) == input <==> forall k :: 0 <= k < |input.pixels| ==> 0.0 <= input.pixels[k] <= 1.0
    ensures Clamped(Clamped(input)) == Clamped(input)
  {
    var r := Clamped(input);
    if forall k :: 0 <= k < |input.pixels| ==> 0.0 <= input.pixels[k] <= 1.0 {
      assert r.pixels == input.pixels;
    }
    if r == input {
      forall k | 0 <= k < |input.pixels| ensures 0.0 <= input.pixels[k] <= 1.0 {
        assert r.pixels[k] == input.pixels[k];
      }
    }
    assert Clamped(r).pixels == r.pixels;
  }

  /** sanitize_image: a copy of the image whose pixels are clamped one by one. */
  method SanitizeImage(input: Image) returns (output: Image)
    ensures output == Clamped(input)
  {
    var pixels := new real[|input.pixels|](k requires 0 <= k < |input.pixels| => input.pixels[k]);
    for k := 0 to pixels.Length
      invariant forall j :: 0 <= j < k ==> pixels[j] == SanitizePixel(input.pixels[j])
      invariant forall j :: k <= j < pixels.Length ==> pixels[j] == input.pixels[j]
    {
      pixels[k] := SanitizePixel(pixels[k]);
    }
    output := Image(input.width, input.height, pixels[..]);
  }

  // ---------------------------------------------------------------------
  // Dimensions.

  /** scaled_dimension: value * scale rounded half away from zero
      (std::llround), and 1 when that rounds to 0. */
  function ScaledDimension(value: nat, scale: real): (r: nat)
    requires scale >= 0.0
    ensures r >= 1
    ensures value as real * scale >= 0.5 ==> value as real * scale - 0.5 <= r as real <= value as real * scale + 0.5
    ensures value as real * scale < 0.5 ==> r == 1
  {
    var rounded := RoundHalfAway(value as real * scale);
    if rounded > 0 then rounded else 1
  }

  /** At scale 0.25 the rounded size is (value + 2) / 4 in integers, and
      never less than 1. */
  lemma QuarterDimension(value: nat)
    ensures ScaledDimension(value, 0.25) == if value < 2 then 1 else (value + 2) / 4
  {
    var q := (value + 2) / 4;
    var x := value as real * 0.25;
    assert value + 2 == 4 * q + (value + 2) % 4;
    assert q as real <= x + 0.5 < q as real + 1.0;
    assert RoundHalfAway(x) == q;
  }

  /** An even non-zero size halves to at least 1 and doubles back to
      itself, which is what sr_lite_refine demands of its two views. */
  lemma HalfDoubles(size: nat)
    requires size > 0 && size % 2 == 0
    ensures size / 2 >= 1 && 2 * (size / 2) == size
  {
  }

  // ---------------------------------------------------------------------
  // The validation gate.

  /** The two formats sanitize handles. */
  predicate SupportedType(t: PixelType) {
    t == U8_RGB || t == F32_RGB
  }

  /** The views sanitize works on: both valid, both RGB in one of the two
      formats, not empty, the same size, and an even size. */
  predicate SanitizeAccepts(input: CpuImage, output: CpuImage) {
    ValidateImage(input) && ValidateImage(output) &&
    SupportedType(input.pixelType) && SupportedType(output.pixelType) &&
    input.width != 0 && input.height != 0 &&
    input.width == output.width && input.height == output.height &&
    output.width % 2 == 0 && output.height % 2 == 0
  }

  /** The gate rejects RGBA on either side, sizes that differ and odd sizes. */
  lemma GateRejects(input: CpuImage, output: CpuImage)
    ensures input.pixelType == U8_RGBA || output.pixelType == U8_RGBA ==> !SanitizeAccepts(input, output)
    ensures input.width != output.width || input.height != output.height ==> !SanitizeAccepts(input, output)
    ensures output.width % 2 == 1 || output.height % 2 == 1 ==> !SanitizeAccepts(input, output)
  {
  }

  // ---------------------------------------------------------------------
  // Blends.

  const FilteredWeight: real := 0.4
  const LowResWeight: real := 0.6
  const SrWeight: real := 0.15
  const UpscaledWeight: real := 0.35
  /** original_weight = 1 - sr_weight - upscaled_weight. */
  const OriginalWeight: real := 1.0 - SrWeight - UpscaledWeight

  /** Both blends are convex: positive weights that sum to 1. */
  lemma BlendWeights()
    ensures FilteredWeight > 0.0 && LowResWeight > 0.0 && FilteredWeight + LowResWeight == 1.0
    ensures SrWeight > 0.0 && UpscaledWeight > 0.0 && OriginalWeight > 0.0
    ensures SrWeight + UpscaledWeight + OriginalWeight == 1.0
    ensures OriginalWeight == 0.5
  {
  }

  /** The low-resolution blend of the attenuated image `filtered` with the
      dithered image `lowRes`, element by element, clamped. */
  function LowResMix(filtered: seq<real>, lowRes: seq<real>): (r: seq<real>)
    requires |filtered| == |lowRes|
    ensures |r| == |filtered|
    ensures forall i :: 0 <= i < |r| ==> 0.0 <= r[i] <= 1.0
  {
    seq(|filtered|, i requires 0 <= i < |filtered| => SanitizePixel(FilteredWeight * filtered[i] + LowResWeight * lowRes[i]))
  }

  /** The final blend of the super-resolved, the upscaled and the original
      image, element by element, clamped. */
  function FinalMix(sr: seq<real>, upscaled: seq<real>, original: seq<real>): (r: seq<real>)
    requires |sr| == |upscaled| == |original|
    ensures |r| == |sr|
    ensures forall i :: 0 <= i < |r| ==> 0.0 <= r[i] <= 1.0
  {
    seq(|sr|, i requires 0 <= i < |sr| => FinalValue(sr[i], upscaled[i], original[i]))
  }

  /** One element of the final blend. */
  function FinalValue(sr: real, upscaled: real, original: real): (r: real)
    ensures 0.0 <= r <= 1.0
  {
    SanitizePixel(SrWeight * sr + UpscaledWeight * upscaled + OriginalWeight * original)
  }

  function Min2(a: real, b: real): real { if a <= b then a else b }
  function Max2(a: real, b: real): real { if a <= b then b else a }

  /** On values in [0, 1] the low-resolution blend lies between its two
      inputs, so the clamp never changes it and equal inputs come back. */
  lemma LowResMixBetween(filtered: seq<real>, lowRes: seq<real>, i: nat)
    requires |filtered| == |lowRes| && i < |filtered|
    requires 0.0 <= filtered[i] <= 1.0 && 0.0 <= lowRes[i] <= 1.0
    ensures Min2(filtered[i], lowRes[i]) <= LowResMix(filtered, lowRes)[i] <= Max2(filtered[i], lowRes[i])
    ensures LowResMix(filtered, lowRes)[i] == FilteredWeight * filtered[i] + LowResWeight * lowRes[i]
  {
    var a, b := filtered[i], lowRes[i];
    var m := FilteredWeight * a + LowResWeight * b;
    assert Min2(a, b) <= m <= Max2(a, b);
  }

  /** On values in [0, 1] the final blend lies between the least and the
      greatest of its three inputs, so the clamp never changes it and three
      equal inputs come back. */
  lemma FinalValueBetween(a: real, b: real, c: real)
    requires 0.0 <= a <= 1.0 && 0.0 <= b <= 1.0 && 0.0 <= c <= 1.0
    ensures Min2(a, Min2(b, c)) <= FinalValue(a, b, c) <= Max2(a, Max2(b, c))
    ensures FinalValue(a, b, c) == SrWeight * a + UpscaledWeight * b + OriginalWeight * c
  {
    var lo, hi := Min2(a, Min2(b, c)), Max2(a, Max2(b, c));
    assert lo <= a <= hi && lo <= b <= hi && lo <= c <= hi;
    var m := 0.15 * a + 0.35 * b + 0.5 * c;
    assert 0.15 * lo + 0.35 * lo + 0.5 * lo <= m <= 0.15 * hi + 0.35 * hi + 0.5 * hi;
  }

  lemma FinalMixBetween(sr: seq<real>, upscaled: seq<real>, original: seq<real>, i: nat)
    requires |sr| == |upscaled| == |original| && i < |sr|
    requires 0.0 <= sr[i] <= 1.0 && 0.0 <= upscaled[i] <= 1.0 && 0.0 <= original[i] <= 1.0
    ensures Min2(sr[i], Min2(upscaled[i], original[i])) <= FinalMix(sr, upscaled, original)[i]
    ensures FinalMix(sr, upscaled, original)[i] <= Max2(sr[i], Max2(upscaled[i], original[i]))
    ensures FinalMix(sr, upscaled, original)[i] == SrWeight * sr[i] + UpscaledWeight * upscaled[i] + OriginalWeight * original[i]
  {
    FinalValueBetween(sr[i], upscaled[i], original[i]);
  }

  /** The low-resolution blend loop, rewriting `pixels` in place. */
  method BlendLowRes(pixels: array<real>, lowRes: seq<real>)
    requires pixels.Length == |lowRes|
    modifies pixels
    ensures pixels[..] == LowResMix(old(pixels[..]), lowRes)
  {
    ghost var filtered := pixels[..];
    for i := 0 to pixels.Length
      invariant forall j :: 0 <= j < i ==> pixels[j] == LowResMix(filtered, lowRes)[j]
      invariant forall j :: i <= j < pixels.Length ==> pixels[j] == filtered[j]
    {
      var mixed := FilteredWeight * pixels[i] + LowResWeight * lowRes[i];
      pixels[i] := SanitizePixel(mixed);
    }
  }

  /** The final blend loop, rewriting the super-resolution buffer in place. */
  method BlendFinal(srOutput: array<real>, upscaled: seq<real>, original: seq<real>)
    requires srOutput.Length == |upscaled| == |original|
    modifies srOutput
    ensures srOutput[..] == FinalMix(old(srOutput[..]), upscaled, original)
  {
    ghost var sr := srOutput[..];
    for i := 0 to srOutput.Length
      invariant forall j :: 0 <= j < i ==> srOutput[j] == FinalMix(sr, upscaled, original)[j]
      invariant forall j :: i <= j < srOutput.Length ==> srOutput[j] == sr[j]
    {
      var blended := SrWeight * srOutput[i] + UpscaledWeight * upscaled[i] + OriginalWeight * original[i];
      srOutput[i] := SanitizePixel(blended);
    }
  }

  // ---------------------------------------------------------------------
  // Conversions between a view and the packed float image.

  /** A packed three-channel buffer read as a view of stride 3 * width is
      the buffer itself. */
  lemma PackedIsItself(s: seq<real>, w: nat, h: nat)
    requires w > 0 && |s| == h * w * 3
    ensures RowsFit(h, w * 3, w * 3, |s|)
    ensures Resize.PackedView(s, w * 3, 3, w, h, Resize.Identity) == s
  {
    Resize.PackedFits(h, w, |s|);
    var p := Resize.PackedView(s, w * 3, 3, w, h, Resize.Identity);
    forall k | 0 <= k < |s| ensures p[k] == s[k] {
      EncodeDecode(h, w, 3, k);
      var y, x, c := RowOf(w, 3, k), ColOf(w, 3, k), ChanOf(w, 3, k);
      IdxAsOff(w, 3, y, x, c);
    }
  }

  /** to_float_image. An invalid view fails and leaves the image alone;
      otherwise the image takes the view's size and receives, through
      convert_image into a packed float view of it, the view's channels. */
  method ToFloatImage(src: CpuImage, dst: Image) returns (ok: bool, result: Image)
    requires Backed(src)
    ensures ok <==> ValidateImage(src)
    ensures !ok ==> result == dst
    ensures ok ==> result == Resize.ViewImage(src)
  {
    if !ValidateImage(src) {
      return false, dst;
    }
    var w, h := src.width, src.height;
    var channels := 3;
    var expected := w * h * channels;
    var pixels := new real[expected](_ => 0.0);
    var floatView := CpuImage(F32_RGB, w, h, w * channels * SizeOfFloat, Floats(pixels));
    ghost var zeros := pixels[..];
    assert |zeros| == h * w * 3;
    assert floatView.strideBytes / SizeOfFloat == w * 3;
    Resize.PackedFits(h, w, pixels.Length);
    ok := ConvertImage(src, floatView);
    result := Image(w, h, pixels[..]);
    match src.data {
      case Bytes(b) =>
        Resize.ConvertedIsPacked(b[..], src.strideBytes, PixelChannels(src.pixelType), zeros, w, h, U8ToFloat);
      case Floats(f) =>
        Resize.CopiedIsPacked(f[..], src.strideBytes / SizeOfFloat, zeros, w, h);
    }
  }

  /** from_float_image. It fails, writing nothing, when the sizes differ or
      the image has no pixels; otherwise the image, seen as a packed float
      view, is converted into the destination by convert_image, which fails
      only for an invalid destination. The image must then hold the
      width * height * 3 floats that view spans. */
  method FromFloatImage(src: Image, dst: CpuImage) returns (ok: bool)
    requires Backed(dst)
    requires src.width == dst.width && src.height == dst.height && |src.pixels| > 0 ==>
               src.height * src.width * 3 <= |src.pixels|
    modifies Objs(dst.data)
    ensures ok <==> src.width == dst.width && src.height == dst.height && |src.pixels| > 0 && ValidateImage(dst)
    ensures !ok ==> unchanged(Objs(dst.data))
    ensures ok && dst.pixelType == U8_RGB ==>
      dst.data.bytes[..] == Resize.BytesBack(src, 3, 0, old(dst.data.bytes[..]), dst.strideBytes)
    ensures ok && dst.pixelType == U8_RGBA ==>
      dst.data.bytes[..] == Resize.BytesBack(src, 4, 255, old(dst.data.bytes[..]), dst.strideBytes)
    ensures ok && dst.pixelType == F32_RGB ==>
      dst.data.floats[..] == Resize.FloatsBack(src, old(dst.data.floats[..]), dst.strideBytes / SizeOfFloat)
  {
    if src.width != dst.width || src.height != dst.height {
      return false;
    }
    if |src.pixels| == 0 {
      return false;
    }
    var pixels := new real[|src.pixels|](k requires 0 <= k < |src.pixels| => src.pixels[k]);
    assert pixels[..] == src.pixels;
    var floatView := CpuImage(F32_RGB, src.width, src.height, src.width * 3 * SizeOfFloat, Floats(pixels));
    assert floatView.strideBytes / SizeOfFloat == src.width * 3;
    Resize.PackedFits(src.height, src.width, pixels.Length);
    ok := ConvertImage(floatView, dst);
  }

  // ---------------------------------------------------------------------
  // The stages.

  /** The quality the DCT stage runs at. */
  const AttenuationQuality: int := 60
  /** The bit depth of the dither stage. */
  const DitherBits: nat := 6

  /** A packed three-channel image of non-zero size. */
  predicate Packed3(img: Image) {
    img.width > 0 && img.height > 0 && |img.pixels| == img.height * img.width * 3
  }

  /** A packed three-channel image has three channels. */
  lemma PackedChannels(img: Image)
    requires Packed3(img)
    ensures ComputeChannels(img) == 3
  {
    assert |img.pixels| == img.width * img.height * 3;
    ComputeChannelsExact(img, 3);
  }

  /** Resampling a packed three-channel image to a non-zero size gives a
      packed three-channel image of that size, with values in [0, 1]. */
  lemma ResampledPacked(img: Image, newWidth: nat, newHeight: nat)
    requires Packed3(img) && newWidth > 0 && newHeight > 0
    ensures var r := Resampled(img, newWidth, newHeight);
            Packed3(r) && r.width == newWidth && r.height == newHeight &&
            forall k :: 0 <= k < |r.pixels| ==> 0.0 <= r.pixels[k] <= 1.0
  {
    PackedChannels(img);
    ResampledShape(img, newWidth, newHeight);
    assert newWidth * newHeight * 3 == newHeight * newWidth * 3;
  }

  /** low_res after quantize_bitdepth: the working image resampled to a
      quarter of its size, then dithered to 6 bits. */
  function LowRes(working: Image): (r: Image)
    requires Packed3(working)
    ensures Packed3(r)
    ensures r.width == ScaledDimension(working.width, 0.25) && r.height == ScaledDimension(working.height, 0.25)
  {
    var down := Resampled(working, ScaledDimension(working.width, 0.25), ScaledDimension(working.height, 0.25));
    ResampledPacked(working, ScaledDimension(working.width, 0.25), ScaledDimension(working.height, 0.25));
    Bitdepth.QuantizedImage(down, DitherBits)
  }

  /** filtered after the low-resolution blend: the DCT-attenuated image
      blended with the dithered one. */
  function Filtered(lowRes: Image, base: seq<int>, fwd: Dct.Block -> Dct.Block, inv: Dct.Block -> Dct.Block): (r: Image)
    requires Packed3(lowRes) && Dct.BaseTableOk(base)
    ensures Packed3(r) && r.width == lowRes.width && r.height == lowRes.height
  {
    var attenuated := Dct.Attenuated(lowRes, AttenuationQuality, base, fwd, inv);
    Image(attenuated.width, attenuated.height, LowResMix(attenuated.pixels, lowRes.pixels))
  }

  /** The blend of the last stages: the filtered image upscaled to the
      working image's size, and super-resolved from half that size, blended
      with the working image. */
  function Blended(working: Image, filtered: Image): (r: Image)
    requires Packed3(working) && working.width % 2 == 0 && working.height % 2 == 0 && Packed3(filtered)
    ensures Packed3(r) && r.width == working.width && r.height == working.height
    ensures forall k :: 0 <= k < |r.pixels| ==> 0.0 <= r.pixels[k] <= 1.0
  {
    var w, h := working.width, working.height;
    var upscaled := Resampled(filtered, w, h);
    var srInput := Resampled(filtered, w / 2, h / 2);
    ResampledPacked(filtered, w, h);
    ResampledPacked(filtered, w / 2, h / 2);
    HalfDoubles(w);
    HalfDoubles(h);
    Image(w, h, FinalMix(SrLite.Forward(srInput.pixels, w / 2, h / 2), upscaled.pixels, working.pixels))
  }

  /** The image sanitize writes into its output view, for the working image
      (the input view as packed floats) of an even, non-zero size. */
  function Sanitized(working: Image, base: seq<int>, fwd: Dct.Block -> Dct.Block, inv: Dct.Block -> Dct.Block): (r: Image)
    requires Packed3(working) && working.width % 2 == 0 && working.height % 2 == 0 && Dct.BaseTableOk(base)
    ensures Packed3(r) && r.width == working.width && r.height == working.height
    ensures forall k :: 0 <= k < |r.pixels| ==> 0.0 <= r.pixels[k] <= 1.0
  {
    Blended(working, Filtered(LowRes(working), base, fwd, inv))
  }

  /** Resampling to a quarter of the size, its emptiness test, and
      quantize_bitdepth(low_res, 6). */
  method LowResStage(working: Image) returns (ok: bool, lowRes: Image)
    requires Packed3(working)
    ensures ok && lowRes == LowRes(working)
  {
    var downWidth := ScaledDimension(working.width, 0.25);
    var downHeight := ScaledDimension(working.height, 0.25);
    lowRes := ResampleCubic(working, downWidth, downHeight);
    ResampledPacked(working, downWidth, downHeight);
    if |lowRes.pixels| == 0 {
      return false, lowRes;
    }
    lowRes := Bitdepth.QuantizeBitdepth(lowRes, DitherBits);
    ok := true;
  }

  /** dct8x8_hf_attenuate(low_res, 60), its emptiness test, and the
      low-resolution blend loop over `filtered`. */
  method FilterStage(lowRes: Image, base: seq<int>, fwd: Dct.Block -> Dct.Block, inv: Dct.Block -> Dct.Block)
    returns (ok: bool, filtered: Image)
    requires Packed3(lowRes) && Dct.BaseTableOk(base)
    ensures ok && filtered == Filtered(lowRes, base, fwd, inv)
  {
    filtered := Dct.HfAttenuate(lowRes, AttenuationQuality, base, fwd, inv);
    if |filtered.pixels| == 0 {
      return false, filtered;
    }
    var pixels := new real[|filtered.pixels|](k requires 0 <= k < |filtered.pixels| => filtered.pixels[k]);
    assert pixels[..] == filtered.pixels;
    BlendLowRes(pixels, lowRes.pixels);
    filtered := Image(filtered.width, filtered.height, pixels[..]);
    ok := true;
  }

  /** sr_lite_refine from a packed float view of `srInput` into the packed
      float view of `srOutput`, twice its size: the buffer then holds the
      network's output for srInput. */
  method RefineStage(srInput: Image, srOutput: array<real>) returns (ok: bool)
    requires Packed3(srInput) && srOutput.Length == (2 * srInput.height) * (2 * srInput.width) * 3
    modifies srOutput
    ensures ok && srOutput[..] == SrLite.Forward(srInput.pixels, srInput.width, srInput.height)
  {
    var srWidth, srHeight := srInput.width, srInput.height;
    var width, height := 2 * srWidth, 2 * srHeight;
    var inputPixels := new real[|srInput.pixels|](k requires 0 <= k < |srInput.pixels| => srInput.pixels[k]);
    assert inputPixels[..] == srInput.pixels;
    var inputView := CpuImage(F32_RGB, srWidth, srHeight, srWidth * 3 * SizeOfFloat, Floats(inputPixels));
    var outputView := CpuImage(F32_RGB, width, height, width * 3 * SizeOfFloat, Floats(srOutput));
    assert inputView.strideBytes / SizeOfFloat == srWidth * 3;
    assert outputView.strideBytes / SizeOfFloat == width * 3;
    PackedIsItself(srInput.pixels, srWidth, srHeight);
    Resize.PackedFits(height, width, srOutput.Length);
    ghost var zeros := srOutput[..];
    ok := SrLite.SrLiteRefine(inputView, outputView);
    assert Resize.ViewImage(inputView).pixels == srInput.pixels;
    var refined := SrLite.Refined(inputView);
    Resize.CopiedIsPacked(refined.pixels, width * 3, zeros, width, height);
    PackedIsItself(refined.pixels, width, height);
  }

  /** Everything sanitize does after its gate and the conversion of the
      input: for a working image of the output's even size, every stage
      succeeds and the output view receives Sanitized(working) in its
      format, its padding kept. */
  method Pipeline(working: Image, output: CpuImage, base: seq<int>, fwd: Dct.Block -> Dct.Block, inv: Dct.Block -> Dct.Block)
    returns (ok: bool)
    requires Backed(output) && ValidateImage(output) && SupportedType(output.pixelType) && Dct.BaseTableOk(base)
    requires Packed3(working) && working.width == output.width && working.height == output.height
    requires output.width % 2 == 0 && output.height % 2 == 0
    modifies Objs(output.data)
    ensures ok
    ensures output.pixelType == U8_RGB ==>
      output.data.bytes[..] == Resize.BytesBack(Sanitized(working, base, fwd, inv), 3, 0, old(output.data.bytes[..]), output.strideBytes)
    ensures output.pixelType == F32_RGB ==>
      output.data.floats[..] == Resize.FloatsBack(Sanitized(working, base, fwd, inv), old(output.data.floats[..]), output.strideBytes / SizeOfFloat)
  {
    var lowResOk, lowRes := LowResStage(working);
    if !lowResOk {
      return false;
    }
    var filteredOk, filtered := FilterStage(lowRes, base, fwd, inv);
    if !filteredOk {
      return false;
    }
    ok := BlendStage(working, filtered, output);
  }

  /** The emptiness-checked resample of the filtered image to half the
      output's size, the input of the super-resolution pass. */
  method SrInputStage(filtered: Image, width: nat, height: nat) returns (ok: bool, srInput: Image)
    requires Packed3(filtered) && width > 0 && height > 0 && width % 2 == 0 && height % 2 == 0
    ensures ok && srInput == Resampled(filtered, width / 2, height / 2) && Packed3(srInput)
    ensures srInput.width == width / 2 && srInput.height == height / 2
  {
    var srWidth, srHeight := width / 2, height / 2;
    HalfDoubles(width);
    HalfDoubles(height);
    srInput := ResampleCubic(filtered, srWidth, srHeight);
    if srWidth == 0 || srHeight == 0 {
      return false, srInput;
    }
    ResampledPacked(filtered, srWidth, srHeight);
    if |srInput.pixels| == 0 {
      return false, srInput;
    }
    ok := true;
  }

  /** The stages after the low-resolution blend: the upscale to the output's
      size, the super-resolution pass from half that size, the final blend
      and the write-back into the output view. */
  method BlendStage(working: Image, filtered: Image, output: CpuImage) returns (ok: bool)
    requires Backed(output) && ValidateImage(output) && SupportedType(output.pixelType)
    requires Packed3(working) && working.width == output.width && working.height == output.height
    requires output.width % 2 == 0 && output.height % 2 == 0 && Packed3(filtered)
    modifies Objs(output.data)
    ensures ok
    ensures output.pixelType == U8_RGB ==>
      output.data.bytes[..] == Resize.BytesBack(Blended(working, filtered), 3, 0, old(output.data.bytes[..]), output.strideBytes)
    ensures output.pixelType == F32_RGB ==>
      output.data.floats[..] == Resize.FloatsBack(Blended(working, filtered), old(output.data.floats[..]), output.strideBytes / SizeOfFloat)
  {
    var upscaled := ResampleCubic(filtered, output.width, output.height);
    ResampledPacked(filtered, output.width, output.height);
    if |upscaled.pixels| == 0 {
      return false;
    }
    var srInputOk, srInput := SrInputStage(filtered, output.width, output.height);
    if !srInputOk {
      return false;
    }
    HalfDoubles(output.width);
    HalfDoubles(output.height);
    var srOutput := new real[output.width * output.height * 3](_ => 0.0);
    var refined := RefineStage(srInput, srOutput);
    if !refined {
      return false;
    }
    BlendFinal(srOutput, upscaled.pixels, working.pixels);
    var finalImage := Image(output.width, output.height, srOutput[..]);
    assert finalImage == Blended(working, filtered);
    ok := FromFloatImage(finalImage, output);
  }

  /** sanitize. It fails, writing nothing, exactly when the gate rejects
      the two views; otherwise no later stage can fail, and the output view
      receives the sanitised image of the input in its format, its padding
      kept. The input is converted before the output is written, so the
      two views may share memory. The forward and inverse 8 x 8 DCT and the base quantisation
      table of the DCT stage are parameters. */
  method Sanitize(input: CpuImage, output: CpuImage, base: seq<int>, fwd: Dct.Block -> Dct.Block, inv: Dct.Block -> Dct.Block)
    returns (ok: bool)
    requires Backed(input) && Backed(output) && Dct.BaseTableOk(base)
    modifies Objs(output.data)
    ensures ok <==> SanitizeAccepts(input, output)
    ensures !ok ==> unchanged(Objs(output.data))
    ensures ok ==> Packed3(old(Resize.ViewImage(input)))
    ensures ok && output.pixelType == U8_RGB ==>
      output.data.bytes[..] ==
      Resize.BytesBack(Sanitized(old(Resize.ViewImage(input)), base, fwd, inv), 3, 0, old(output.data.bytes[..]), output.strideBytes)
    ensures ok && output.pixelType == F32_RGB ==>
      output.data.floats[..] ==
      Resize.FloatsBack(Sanitized(old(Resize.ViewImage(input)), base, fwd, inv), old(output.data.floats[..]), output.strideBytes / SizeOfFloat)
  {
    if !ValidateImage(input) || !ValidateImage(output) {
      return false;
    }
    if !SupportedType(input.pixelType) || !SupportedType(output.pixelType) {
      return false;
    }
    if input.width == 0 || input.height == 0 {
      return false;
    }
    if input.width != output.width || input.height != output.height {
      return false;
    }
    if output.width % 2 != 0 || output.height % 2 != 0 {
      return false;
    }
    var converted, working := ToFloatImage(input, Image(0, 0, []));
    if !converted {
      return false;
    }
    ok := Pipeline(working, output, base, fwd, inv);
  }
}
