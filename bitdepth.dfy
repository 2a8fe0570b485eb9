// The ordered-dither bit-depth reducer (src/cpu/bitdepth.cpp): every
// element is clamped to [0, 1], scaled by 2^bits, offset by an 8x8 Bayer
// threshold chosen by its pixel position, floored and clamped to a level
// k in [0, 2^bits - 1], and replaced by k / (2^bits - 1).
module Bitdepth {
  import opened Arith
  import opened Grid
  import opened Images
  import Resample

  /** The 8x8 Bayer matrix, indexed [y][x]. */
  const Bayer: seq<seq<nat>> := [
    [0, 48, 12, 60, 3, 51, 15, 63],
    [32, 16, 44, 28, 35, 19, 47, 31],
    [8, 56, 4, 52, 11, 59, 7, 55],
    [40, 24, 36, 20, 43, 27, 39, 23],
    [2, 50, 14, 62, 1, 49, 13, 61],
    [34, 18, 46, 30, 33, 17, 45, 29],
    [10, 58, 6, 54, 9, 57, 5, 53],
    [42, 26, 38, 22, 41, 25, 37, 21]
  ]

  /** The scale that maps a Bayer entry onto [0, 1). */
  const InvBayerScale: real := 1.0 / 64.0

  /** The matrix is 8x8 and every entry is one of 0..63. */
  lemma BayerShape()
    ensures |Bayer| == 8
    ensures forall i :: 0 <= i < 8 ==> |Bayer[i]| == 8
    ensures forall i, j :: 0 <= i < 8 && 0 <= j < 8 ==> Bayer[i][j] < 64
  {
  }

  /** The entry for pixel (x, y); `& 7` on an unsigned index is `% 8`. */
  function BayerAt(x: nat, y: nat): (b: nat)
    ensures b < 64
  {
    BayerShape();
    Bayer[y % 8][x % 8]
  }

  /** The dither threshold of pixel (x, y). */
  function Threshold(x: nat, y: nat): (t: real)
    ensures 0.0 < t < 1.0
  {
    (BayerAt(x, y) as real + 0.5) * InvBayerScale
  }

  /** The threshold only depends on the position modulo 8 in each axis. */
  lemma ThresholdPeriodic(x: nat, y: nat)
    ensures Threshold(x + 8, y) == Threshold(x, y)
    ensures Threshold(x, y + 8) == Threshold(x, y)
    ensures Threshold(x, y) == Threshold(x % 8, y % 8)
  {
    assert (x + 8) % 8 == x % 8;
    assert (y + 8) % 8 == y % 8;
  }

  /** 0 selects the default depth 6, and anything above 8 is capped at 8. */
  function SanitizeBits(bits: nat): (r: nat)
    ensures 1 <= r <= 8
    ensures bits == 0 ==> r == 6
    ensures 1 <= bits <= 8 ==> r == bits
    ensures bits > 8 ==> r == 8
  {
    var b := if bits == 0 then 6 else bits;
    var b := if b < 1 then 1 else b;
    if b > 8 then 8 else b
  }

  function Pow2(n: nat): (r: nat)
    ensures r >= 1
  {
    if n == 0 then 1 else 2 * Pow2(n - 1)
  }

  /** The number of levels, 1 << bits. */
  function Levels(bits: nat): nat {
    Pow2(SanitizeBits(bits))
  }

  function MaxLevel(bits: nat): int {
    Levels(bits) - 1
  }

  /** Between 2 and 256 levels, so the top level is at least 1. */
  lemma LevelsBounds(bits: nat)
    ensures 2 <= Levels(bits) <= 256
    ensures 1 <= MaxLevel(bits) <= 255
  {
    var s := SanitizeBits(bits);
    assert Pow2(s) <= 256 && Pow2(s) >= 2 by {
      if s == 1 { } else if s == 2 { } else if s == 3 { } else if s == 4 { }
      else if s == 5 { } else if s == 6 { } else if s == 7 { } else { }
    }
  }

  /** The value written for level k when the top level is m. */
  function LevelValue(k: int, m: int): real
    requires m > 0
  {
    k as real * (1.0 / m as real)
  }

  lemma LevelValueFacts(k: int, m: int)
    requires m > 0
    ensures LevelValue(k, m) * m as real == k as real
    ensures 0 <= k <= m ==> 0.0 <= LevelValue(k, m) <= 1.0
    ensures LevelValue(0, m) == 0.0 && LevelValue(m, m) == 1.0
  {
  }

  /** Higher levels give strictly larger values. */
  lemma LevelValueStrict(k: int, j: int, m: int)
    requires m > 0 && k < j
    ensures LevelValue(k, m) < LevelValue(j, m)
  {
  }

  function Scaled(v: real, levels: nat): real {
    Clamp01(v) * levels as real
  }

  /** The level chosen for value v under dither threshold t. */
  function QuantLevel(v: real, bits: nat, t: real): (k: int)
    ensures 0 <= k <= MaxLevel(bits)
  {
    LevelsBounds(bits);
    var biased := Scaled(v, Levels(bits)) + t - 0.5;
    var q := biased.Floor;
    if q < 0 then 0 else if q > MaxLevel(bits) then MaxLevel(bits) else q
  }

  /** The new value of an element whose old value is v, under threshold t. */
  function Quantize(v: real, bits: nat, t: real): real {
    var m := MaxLevel(bits);
    if m > 0 then LevelValue(QuantLevel(v, bits, t), m) else 0.0
  }

  /** The new value of an element whose old value is v, at pixel (x, y). */
  function QuantizeValue(v: real, bits: nat, x: nat, y: nat): real {
    Quantize(v, bits, Threshold(x, y))
  }

  /** Every output is k / (2^bits - 1) for an integer level k in
      [0, 2^bits - 1]; in particular it lies in [0, 1]. */
  lemma QuantizeLevel(v: real, bits: nat, t: real)
    ensures MaxLevel(bits) > 0
    ensures var k := QuantLevel(v, bits, t);
            0 <= k <= MaxLevel(bits) &&
            Quantize(v, bits, t) == LevelValue(k, MaxLevel(bits))
    ensures 0.0 <= Quantize(v, bits, t) <= 1.0
  {
    LevelsBounds(bits);
    var m, k := MaxLevel(bits), QuantLevel(v, bits, t);
    QuantizeIsLevel(v, bits, t);
    LevelValueFacts(k, m);
  }

  lemma QuantizeIsLevel(v: real, bits: nat, t: real)
    requires MaxLevel(bits) > 0
    ensures Quantize(v, bits, t) == LevelValue(QuantLevel(v, bits, t), MaxLevel(bits))
  {
  }

  /** The input is clamped to [0, 1] before it is scaled. */
  lemma QuantizeClamps(v: real, bits: nat, t: real)
    ensures Quantize(Clamp01(v), bits, t) == Quantize(v, bits, t)
  {
    assert Scaled(Clamp01(v), Levels(bits)) == Scaled(v, Levels(bits));
  }

  /** Black stays black and white stays white under every threshold in
      (0, 1), so at every pixel. */
  lemma QuantizeEndpoints(bits: nat, t: real)
    requires 0.0 < t < 1.0
    ensures Quantize(0.0, bits, t) == 0.0
    ensures Quantize(1.0, bits, t) == 1.0
  {
    LevelsBounds(bits);
    var m := MaxLevel(bits);
    LevelValueFacts(0, m);
    assert Scaled(0.0, Levels(bits)) == 0.0;
    assert (0.0 + t - 0.5).Floor <= 0;
    assert QuantLevel(0.0, bits, t) == 0;
    assert Scaled(1.0, Levels(bits)) == (m + 1) as real;
    assert ((m + 1) as real + t - 0.5).Floor >= m;
    assert QuantLevel(1.0, bits, t) == m;
  }

  lemma ScaledMonotone(v: real, u: real, levels: nat)
    requires v <= u
    ensures Scaled(v, levels) <= Scaled(u, levels)
  {
    var l := levels as real;
    assert Clamp01(v) <= Clamp01(u);
    assert Clamp01(v) * l <= Clamp01(u) * l;
  }

  lemma QuantLevelMonotone(v: real, u: real, bits: nat, t: real)
    requires v <= u
    ensures QuantLevel(v, bits, t) <= QuantLevel(u, bits, t)
  {
    ScaledMonotone(v, u, Levels(bits));
    var a, b := Scaled(v, Levels(bits)) + t - 0.5, Scaled(u, Levels(bits)) + t - 0.5;
    assert a.Floor <= b.Floor;
  }

  /** A brighter input never gives a darker output. */
  lemma QuantizeMonotone(v: real, u: real, bits: nat, t: real)
    requires v <= u
    ensures Quantize(v, bits, t) <= Quantize(u, bits, t)
  {
    LevelsBounds(bits);
    var k, j := QuantLevel(v, bits, t), QuantLevel(u, bits, t);
    QuantLevelMonotone(v, u, bits, t);
    QuantizeIsLevel(v, bits, t);
    QuantizeIsLevel(u, bits, t);
    if k < j {
      LevelValueStrict(k, j, MaxLevel(bits));
    }
  }

  /** The output at pixel (x, y) repeats every 8 pixels in each direction. */
  lemma QuantizePeriodic(v: real, bits: nat, x: nat, y: nat)
    ensures QuantizeValue(v, bits, x + 8, y) == QuantizeValue(v, bits, x, y)
    ensures QuantizeValue(v, bits, x, y + 8) == QuantizeValue(v, bits, x, y)
  {
    ThresholdPeriodic(x, y);
  }

  // The set of output values.

  /** The values of levels 0 .. n - 1 when the top level is m. */
  function LevelSet(n: nat, m: int): set<real>
    requires m > 0
  {
    if n == 0 then {} else LevelSet(n - 1, m) + {LevelValue(n - 1, m)}
  }

  lemma {:induction false} LevelSetMembers(n: nat, m: int, r: real)
    requires m > 0
    ensures r in LevelSet(n, m) <==> exists k :: 0 <= k < n && r == LevelValue(k, m)
  {
    if n > 0 {
      LevelSetMembers(n - 1, m, r);
    }
  }

  /** Distinct levels give distinct values, so there are exactly n of them. */
  lemma {:induction false} LevelSetSize(n: nat, m: int)
    requires m > 0
    ensures |LevelSet(n, m)| == n
  {
    if n > 0 {
      LevelSetSize(n - 1, m);
      var r := LevelValue(n - 1, m);
      if r in LevelSet(n - 1, m) {
        LevelSetMembers(n - 1, m, r);
        var k :| 0 <= k < n - 1 && r == LevelValue(k, m);
        LevelValueStrict(k, n - 1, m);
      }
    }
  }

  /** The 2^bits possible outputs. */
  function OutputLevels(bits: nat): (s: set<real>)
    ensures |s| == Levels(bits)
  {
    LevelsBounds(bits);
    LevelSetSize(Levels(bits), MaxLevel(bits));
    LevelSet(Levels(bits), MaxLevel(bits))
  }

  /** Every output is one of the 2^bits levels. */
  lemma QuantizeInLevels(v: real, bits: nat, t: real)
    ensures Quantize(v, bits, t) in OutputLevels(bits)
  {
    QuantizeLevel(v, bits, t);
    LevelSetMembers(Levels(bits), MaxLevel(bits), Quantize(v, bits, t));
  }

  // The buffer pass.

  /** The buffer after quantize_in_place: the first w * h * ch elements are
      quantized by their pixel position, the rest are untouched, and a
      buffer with a zero dimension is left alone. */
  function Quantized(s: seq<real>, w: nat, h: nat, ch: nat, bits: nat): (r: seq<real>)
    ensures |r| == |s|
  {
    if w == 0 || h == 0 || ch == 0 then s
    else seq(|s|, k requires 0 <= k < |s| =>
           if k < h * w * ch then QuantizeValue(s[k], bits, ColOf(w, ch, k), RowOf(w, ch, k)) else s[k])
  }

  /** Element (y, x, c) becomes the quantized value of its own old value at
      (x, y), whatever c and the channel count are. */
  lemma QuantizedAt(s: seq<real>, w: nat, h: nat, ch: nat, bits: nat, y: nat, x: nat, c: nat)
    requires y < h && x < w && c < ch && h * w * ch <= |s|
    ensures Idx(w, ch, y, x, c) < |s|
    ensures Quantized(s, w, h, ch, bits)[Idx(w, ch, y, x, c)] == QuantizeValue(s[Idx(w, ch, y, x, c)], bits, x, y)
  {
    IdxBound(h, w, ch, y, x, c);
    DecodeIdx(h, w, ch, y, x, c);
  }

  /** Elements past the image are untouched. */
  lemma QuantizedTail(s: seq<real>, w: nat, h: nat, ch: nat, bits: nat, k: nat)
    requires h * w * ch <= k < |s|
    ensures Quantized(s, w, h, ch, bits)[k] == s[k]
  {
  }

  /** The sequence equal to Quantized at every coordinate and past the image
      is Quantized itself. */
  lemma QuantizedChar(r: seq<real>, s: seq<real>, w: nat, h: nat, ch: nat, bits: nat)
    requires w > 0 && h > 0 && ch > 0 && |r| == |s| && h * w * ch <= |s|
    requires forall y, x, c :: 0 <= y < h && 0 <= x < w && 0 <= c < ch ==>
               Idx(w, ch, y, x, c) < |r| && r[Idx(w, ch, y, x, c)] == QuantizeValue(s[Idx(w, ch, y, x, c)], bits, x, y)
    requires forall k :: h * w * ch <= k < |s| ==> r[k] == s[k]
    ensures r == Quantized(s, w, h, ch, bits)
  {
    var q := Quantized(s, w, h, ch, bits);
    forall k | 0 <= k < |s| ensures r[k] == q[k] {
      if k < h * w * ch {
        EncodeDecode(h, w, ch, k);
      }
    }
  }

  /** quantize_in_place: a null buffer or a zero dimension is a no-op;
      otherwise visit rows, then columns, then channels, replacing each
      element by its quantized value. */
  method QuantizeInPlace(data: array?<real>, width: nat, height: nat, channels: nat, bits: nat)
    requires data != null ==> height * width * channels <= data.Length
    modifies data
    ensures data != null ==> data[..] == Quantized(old(data[..]), width, height, channels, bits)
  {
    if data == null || width == 0 || height == 0 || channels == 0 {
      return;
    }
    LevelsBounds(bits);
    ghost var s := data[..];
    for y := 0 to height
      invariant forall yy, xx, cc :: 0 <= yy < y && 0 <= xx < width && 0 <= cc < channels ==>
                  Idx(width, channels, yy, xx, cc) < data.Length &&
                  data[Idx(width, channels, yy, xx, cc)] == QuantizeValue(s[Idx(width, channels, yy, xx, cc)], bits, xx, yy)
      invariant forall k :: Idx(width, channels, y, 0, 0) <= k < data.Length ==> data[k] == s[k]
    {
      QuantizeRow(data, s, width, height, channels, bits, y);
      forall yy, xx, cc | 0 <= yy < y && 0 <= xx < width && 0 <= cc < channels
        ensures Idx(width, channels, yy, xx, cc) < Idx(width, channels, y, 0, 0)
      {
        IdxOrder(width, channels, yy, xx, cc, y, 0);
      }
    }
    IdxStep(width, channels, height, 0);
    assert height * width * channels == Idx(width, channels, height, 0, 0);
    QuantizedChar(data[..], s, width, height, channels, bits);
  }

  /** One row of the pass. */
  method QuantizeRow(data: array<real>, ghost s: seq<real>, width: nat, height: nat, channels: nat, bits: nat, y: nat)
    requires y < height && 0 < width && 0 < channels
    requires height * width * channels <= data.Length == |s|
    requires forall k :: Idx(width, channels, y, 0, 0) <= k < data.Length ==> data[k] == s[k]
    modifies data
    ensures forall k :: 0 <= k < data.Length && k < Idx(width, channels, y, 0, 0) ==> data[k] == old(data[k])
    ensures forall xx, cc :: 0 <= xx < width && 0 <= cc < channels ==>
              Idx(width, channels, y, xx, cc) < data.Length &&
              data[Idx(width, channels, y, xx, cc)] == QuantizeValue(s[Idx(width, channels, y, xx, cc)], bits, xx, y)
    ensures forall k :: Idx(width, channels, y + 1, 0, 0) <= k < data.Length ==> data[k] == s[k]
  {
    for x := 0 to width
      invariant forall k :: 0 <= k < data.Length && k < Idx(width, channels, y, 0, 0) ==> data[k] == old(data[k])
      invariant forall xx, cc :: 0 <= xx < x && 0 <= cc < channels ==>
                  Idx(width, channels, y, xx, cc) < data.Length &&
                  data[Idx(width, channels, y, xx, cc)] == QuantizeValue(s[Idx(width, channels, y, xx, cc)], bits, xx, y)
      invariant forall k :: Idx(width, channels, y, x, 0) <= k < data.Length ==> data[k] == s[k]
    {
      QuantizePixel(data, s, width, height, channels, bits, y, x);
      forall xx, cc | 0 <= xx < x && 0 <= cc < channels
        ensures Idx(width, channels, y, xx, cc) < Idx(width, channels, y, x, 0)
      {
        IdxOrder(width, channels, y, xx, cc, y, x);
      }
    }
    IdxStep(width, channels, y, width);
  }

  /** The channels of one pixel. */
  method QuantizePixel(data: array<real>, ghost s: seq<real>, width: nat, height: nat, channels: nat, bits: nat, y: nat, x: nat)
    requires y < height && x < width && 0 < channels
    requires height * width * channels <= data.Length == |s|
    requires forall k :: Idx(width, channels, y, x, 0) <= k < data.Length ==> data[k] == s[k]
    modifies data
    ensures forall k :: 0 <= k < data.Length && k < Idx(width, channels, y, x, 0) ==> data[k] == old(data[k])
    ensures forall cc :: 0 <= cc < channels ==>
              Idx(width, channels, y, x, cc) < data.Length &&
              data[Idx(width, channels, y, x, cc)] == QuantizeValue(s[Idx(width, channels, y, x, cc)], bits, x, y)
    ensures forall k :: Idx(width, channels, y, x + 1, 0) <= k < data.Length ==> data[k] == s[k]
  {
    var levels := Pow2(SanitizeBits(bits));
    var maxLevel := levels - 1;
    var threshold := Threshold(x, y);
    IdxStep(width, channels, y, x);
    for c := 0 to channels
      invariant forall k :: 0 <= k < data.Length && k < Idx(width, channels, y, x, 0) ==> data[k] == old(data[k])
      invariant forall cc :: 0 <= cc < c ==>
                  Idx(width, channels, y, x, cc) < data.Length &&
                  data[Idx(width, channels, y, x, cc)] == QuantizeValue(s[Idx(width, channels, y, x, cc)], bits, x, y)
      invariant forall k :: Idx(width, channels, y, x, c) <= k < data.Length ==> data[k] == s[k]
    {
      var idx := Idx(width, channels, y, x, c);
      IdxBound(height, width, channels, y, x, c);
      var v := data[idx];
      var scaled := Scaled(v, levels);
      var biased := scaled + threshold - 0.5;
      var quantized := biased.Floor;
      if quantized < 0 {
        quantized := 0;
      } else if quantized > maxLevel {
        quantized := maxLevel;
      }
      assert quantized == QuantLevel(v, bits, threshold);
      data[idx] := if maxLevel > 0 then LevelValue(quantized, maxLevel) else 0.0;
      assert data[idx] == QuantizeValue(s[idx], bits, x, y);
    }
  }

  // The image entry point.

  /** The channel count of a packed image, or 0 when the image is empty or
      its pixel count is not a multiple of width * height. */
  function InferChannels(image: Image): (ch: nat)
    ensures ch > 0 <==> image.width > 0 && image.height > 0 && |image.pixels| > 0 &&
                        |image.pixels| % (image.width * image.height) == 0
    ensures ch > 0 ==> |image.pixels| == image.height * image.width * ch
  {
    var pixels := image.width * image.height;
    if image.width == 0 || image.height == 0 || pixels == 0 then 0
    else if |image.pixels| == 0 || |image.pixels| % pixels != 0 then 0
    else
        var ch := |image.pixels| / pixels;
        assert |image.pixels| == image.height * image.width * ch by {
          assert |image.pixels| == ch * pixels;
        }
        ch
  }

  /** The extra emptiness test changes nothing: the count agrees with the
      one the resampler uses. */
  lemma InferChannelsAgrees(image: Image)
    ensures InferChannels(image) == Resample.ComputeChannels(image)
  {
  }

  /** The image after quantize_bitdepth. */
  function QuantizedImage(image: Image, bits: nat): (r: Image)
    ensures r.width == image.width && r.height == image.height && |r.pixels| == |image.pixels|
  {
    var ch := InferChannels(image);
    if ch == 0 then image
    else Image(image.width, image.height, Quantized(image.pixels, image.width, image.height, ch, bits))
  }

  /** A quantized image holds only the 2^bits levels; an image whose size
      does not give a channel count is returned as it was. */
  lemma QuantizedImageLevels(image: Image, bits: nat)
    ensures InferChannels(image) == 0 ==> QuantizedImage(image, bits) == image
    ensures InferChannels(image) > 0 ==>
              forall k :: 0 <= k < |image.pixels| ==>
                QuantizedImage(image, bits).pixels[k] in OutputLevels(bits) &&
                0.0 <= QuantizedImage(image, bits).pixels[k] <= 1.0
  {
    var ch := InferChannels(image);
    if ch > 0 {
      var w, h := image.width, image.height;
      forall k | 0 <= k < |image.pixels|
        ensures QuantizedImage(image, bits).pixels[k] in OutputLevels(bits)
        ensures 0.0 <= QuantizedImage(image, bits).pixels[k] <= 1.0
      {
        var t := Threshold(ColOf(w, ch, k), RowOf(w, ch, k));
        QuantizeInLevels(image.pixels[k], bits, t);
        QuantizeLevel(image.pixels[k], bits, t);
      }
    }
  }

  /** At most 2^bits distinct values remain in a quantized image. */
  lemma QuantizedImageDistinct(image: Image, bits: nat)
    requires InferChannels(image) > 0
    ensures |set k | 0 <= k < |image.pixels| :: QuantizedImage(image, bits).pixels[k]| <= Levels(bits)
  {
    var q := QuantizedImage(image, bits).pixels;
    var values := set k | 0 <= k < |image.pixels| :: q[k];
    QuantizedImageLevels(image, bits);
    assert values <= OutputLevels(bits);
    SubsetSize(values, OutputLevels(bits));
  }

  lemma SubsetSize(a: set<real>, b: set<real>)
    requires a <= b
    ensures |a| <= |b|
  {
    assert b == a + (b - a);
    assert a * (b - a) == {};
  }

  /** quantize_bitdepth: an image whose channel count cannot be inferred is
      left alone; otherwise its pixels are quantized in place. */
  method QuantizeBitdepth(image: Image, bits: nat) returns (result: Image)
    ensures result == QuantizedImage(image, bits)
  {
    var channels := InferChannels(image);
    if channels == 0 {
      return image;
    }
    var data := new real[|image.pixels|](k requires 0 <= k < |image.pixels| => image.pixels[k]);
    assert data[..] == image.pixels;
    QuantizeInPlace(data, image.width, image.height, channels, bits);
    result := Image(image.width, image.height, data[..]);
  }
}
