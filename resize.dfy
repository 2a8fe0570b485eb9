// The view-level resize of src/cpu/resample.cpp: a caller's view is copied
// into a packed three-channel float image (copy_cpu_to_image), resampled to
// the size the scales give (resample_cubic), and written back into the
// caller's destination view (copy_image_to_cpu).
module Resize {
  import opened Arith
  import opened Grid
  import opened Images
  import opened PixelOps
  import opened Resample

  function Identity(v: real): real { v }

  /** Channel c of pixel (y, x) of a strided view of pix-element pixels,
      converted by f. */
  function ViewAt<A>(s: seq<A>, stride: nat, pix: nat, w: nat, h: nat, f: A -> real, y: nat, x: nat, c: nat): real
    requires 3 <= pix && w * pix <= stride && RowsFit(h, stride, w * pix, |s|)
    requires y < h && x < w && c < 3
  {
    MulMonoLeft(x + 1, w, pix);
    OffBound(h, stride, w * pix, |s|, y, x * pix + c);
    f(s[Off(stride, y, x * pix + c)])
  }

  /** The packed three-channel float image of a strided view: channels 0, 1
      and 2 of every pixel, converted by f, in row-major order. */
  function PackedView<A>(s: seq<A>, stride: nat, pix: nat, w: nat, h: nat, f: A -> real): (r: seq<real>)
    requires w > 0 && 3 <= pix && w * pix <= stride && RowsFit(h, stride, w * pix, |s|)
    ensures |r| == h * w * 3
  {
    seq(h * w * 3, k requires 0 <= k < h * w * 3 =>
      EncodeDecode(h, w, 3, k);
      ViewAt(s, stride, pix, w, h, f, RowOf(w, 3, k), ColOf(w, 3, k), ChanOf(w, 3, k)))
  }

  /** The image copy_cpu_to_image makes of a valid view: the view's size,
      three channels, 8-bit channels scaled by 1/255 (an RGBA view's alpha
      dropped) and float channels as stored. */
  function ViewImage(src: CpuImage): (img: Image)
    requires ValidateImage(src) && Backed(src)
    reads Objs(src.data)
    ensures img.width == src.width && img.height == src.height
    ensures |img.pixels| == src.height * src.width * 3
  {
    if src.data.Bytes? then
      Image(src.width, src.height,
            PackedView(src.data.bytes[..], src.strideBytes, PixelChannels(src.pixelType), src.width, src.height, U8ToFloat))
    else
      Image(src.width, src.height,
            PackedView(src.data.floats[..], src.strideBytes / 4, 3, src.width, src.height, Identity))
  }

  /** Pixel (y, x) of the image of a view holds the view's channels. */
  lemma ViewImageAt(src: CpuImage, y: nat, x: nat, c: nat)
    requires ValidateImage(src) && Backed(src) && y < src.height && x < src.width && c < 3
    ensures Idx(src.width, 3, y, x, c) < |ViewImage(src).pixels|
    ensures src.data.Bytes? ==>
      Off(src.strideBytes, y, x * PixelChannels(src.pixelType) + c) < src.data.bytes.Length &&
      ViewImage(src).pixels[Idx(src.width, 3, y, x, c)]
        == U8ToFloat(src.data.bytes[Off(src.strideBytes, y, x * PixelChannels(src.pixelType) + c)])
    ensures src.data.Floats? ==>
      Off(src.strideBytes / 4, y, x * 3 + c) < src.data.floats.Length &&
      ViewImage(src).pixels[Idx(src.width, 3, y, x, c)] == src.data.floats[Off(src.strideBytes / 4, y, x * 3 + c)]
    ensures src.data.Bytes? ==> 0.0 <= ViewImage(src).pixels[Idx(src.width, 3, y, x, c)] <= 1.0
  {
    var w, h := src.width, src.height;
    IdxBound(h, w, 3, y, x, c);
    DecodeIdx(h, w, 3, y, x, c);
    var pix := if src.data.Bytes? then PixelChannels(src.pixelType) else 3;
    MulMonoLeft(x + 1, w, pix);
    if src.data.Bytes? {
      OffBound(h, src.strideBytes, w * pix, src.data.bytes.Length, y, x * pix + c);
    } else {
      OffBound(h, src.strideBytes / 4, w * pix, src.data.floats.Length, y, x * pix + c);
    }
  }

  /** A packed buffer of h rows of w three-channel pixels. */
  lemma PackedFits(h: nat, w: nat, n: nat)
    requires h * w * 3 <= n
    ensures RowsFit(h, w * 3, w * 3, n)
  {
    if h > 0 {
      assert (h - 1) * (w * 3) + w * 3 == h * w * 3;
    }
  }

  /** copy_cpu_to_image. An invalid view fails and leaves the destination
      image as it was; a valid one gives the view's image. */
  method CopyCpuToImage(src: CpuImage, dst: Image) returns (ok: bool, img: Image)
    requires Backed(src)
    ensures ok <==> ValidateImage(src)
    ensures !ok ==> img == dst
    ensures ok ==> img == ViewImage(src)
  {
    if !ValidateImage(src) {
      return false, dst;
    }
    var w, h := src.width, src.height;
    var pixels := new real[w * h * 3](_ => 0.0);
    assert w * h * 3 == h * w * 3;
    PackedFits(h, w, pixels.Length);
    ghost var zeros := pixels[..];
    match src.pixelType {
      case U8_RGB =>
        ConvertRows(src.data.bytes, src.strideBytes, 3, pixels, w * 3, 3, h, w, U8ToFloat, 0.0);
        ConvertedIsPacked(src.data.bytes[..], src.strideBytes, 3, zeros, w, h, U8ToFloat);
      case U8_RGBA =>
        ConvertRows(src.data.bytes, src.strideBytes, 4, pixels, w * 3, 3, h, w, U8ToFloat, 0.0);
        ConvertedIsPacked(src.data.bytes[..], src.strideBytes, 4, zeros, w, h, U8ToFloat);
      case F32_RGB =>
        CopyRows(src.data.floats, src.strideBytes / 4, pixels, w * 3, h, w * 3);
        CopiedIsPacked(src.data.floats[..], src.strideBytes / 4, zeros, w, h);
      case Unrecognized =>
        return false, dst;
    }
    ok, img := true, Image(w, h, pixels[..]);
  }

  /** Converting the rows of a view into a packed buffer of h * w * 3
      elements fills the whole buffer with the view's packed image. */
  lemma ConvertedIsPacked(s: seq<byte>, stride: nat, pix: nat, d0: seq<real>, w: nat, h: nat, f: byte -> real)
    requires w > 0 && 3 <= pix <= 4 && w * pix <= stride && RowsFit(h, stride, w * pix, |s|)
    requires |d0| == h * w * 3
    ensures ConvertedRows(s, stride, pix, d0, w * 3, 3, h, w, f, 0.0) == PackedView(s, stride, pix, w, h, f)
  {
    PackedFits(h, w, |d0|);
    var r, p := ConvertedRows(s, stride, pix, d0, w * 3, 3, h, w, f, 0.0), PackedView(s, stride, pix, w, h, f);
    forall k | 0 <= k < |d0| ensures r[k] == p[k] {
      EncodeDecode(h, w, 3, k);
      var y, x, c := RowOf(w, 3, k), ColOf(w, 3, k), ChanOf(w, 3, k);
      IdxAsOff(w, 3, y, x, c);
      ConvertedRowsPixel(s, stride, pix, d0, w * 3, 3, h, w, f, 0.0, y, x, c);
    }
  }

  /** Copying the rows of a float view into a packed buffer of h * w * 3
      elements fills the whole buffer with the view's packed image. */
  lemma CopiedIsPacked(s: seq<real>, stride: nat, d0: seq<real>, w: nat, h: nat)
    requires w > 0 && w * 3 <= stride && RowsFit(h, stride, w * 3, |s|)
    requires |d0| == h * w * 3
    ensures CopiedRows(s, stride, d0, w * 3, h, w * 3) == PackedView(s, stride, 3, w, h, Identity)
  {
    PackedFits(h, w, |d0|);
    var r, p := CopiedRows(s, stride, d0, w * 3, h, w * 3), PackedView(s, stride, 3, w, h, Identity);
    forall k | 0 <= k < |d0| ensures r[k] == p[k] {
      EncodeDecode(h, w, 3, k);
      var y, x, c := RowOf(w, 3, k), ColOf(w, 3, k), ChanOf(w, 3, k);
      IdxAsOff(w, 3, y, x, c);
      IdxBound(h, w, 3, y, x, c);
      CopiedRowsPayload(s, stride, d0, w * 3, h, w * 3, y, x * 3 + c);
    }
  }

  // Writing a packed image back into a view.

  /** The bytes of an 8-bit destination of pix-byte pixels after the
      write-back of img: float_to_u8 of each channel, a fourth channel set
      to `fill`, padding kept. */
  function BytesBack(img: Image, pix: nat, fill: byte, d0: seq<byte>, stride: nat): seq<byte>
    requires img.width > 0 && img.height * img.width * 3 <= |img.pixels|
    requires (pix == 3 || pix == 4) && img.width * pix <= stride
  {
    PackedFits(img.height, img.width, |img.pixels|);
    ConvertedRows(img.pixels, img.width * 3, 3, d0, stride, pix, img.height, img.width, FloatToU8, fill)
  }

  /** The floats of a float destination after the write-back of img: each
      row copied, padding kept. */
  function FloatsBack(img: Image, d0: seq<real>, stride: nat): seq<real>
    requires img.width > 0 && img.height * img.width * 3 <= |img.pixels|
    requires img.width * 3 <= stride
  {
    PackedFits(img.height, img.width, |img.pixels|);
    CopiedRows(img.pixels, img.width * 3, d0, stride, img.height, img.width * 3)
  }

  /** copy_image_to_cpu. It fails, writing nothing, unless the view is valid
      and has the image's size; then every row of the view receives the
      image's row in the view's format. */
  method CopyImageToCpu(src: Image, dst: CpuImage) returns (ok: bool)
    requires Backed(dst)
    requires dst.width == src.width && dst.height == src.height && ValidateImage(dst) ==>
               src.height * src.width * 3 <= |src.pixels|
    modifies Objs(dst.data)
    ensures ok <==> dst.width == src.width && dst.height == src.height && ValidateImage(dst)
    ensures !ok ==> unchanged(Objs(dst.data))
    ensures ok && dst.pixelType == U8_RGB ==>
      dst.data.bytes[..] == BytesBack(src, 3, 0, old(dst.data.bytes[..]), dst.strideBytes)
    ensures ok && dst.pixelType == U8_RGBA ==>
      dst.data.bytes[..] == BytesBack(src, 4, 255, old(dst.data.bytes[..]), dst.strideBytes)
    ensures ok && dst.pixelType == F32_RGB ==>
      dst.data.floats[..] == FloatsBack(src, old(dst.data.floats[..]), dst.strideBytes / 4)
  {
    if dst.width != src.width || dst.height != src.height {
      return false;
    }
    if !ValidateImage(dst) {
      return false;
    }
    var w, h := dst.width, dst.height;
    var pixels := new real[|src.pixels|](i requires 0 <= i < |src.pixels| => src.pixels[i]);
    assert pixels[..] == src.pixels;
    PackedFits(h, w, pixels.Length);
    match dst.pixelType {
      case U8_RGB =>
        ConvertRows(pixels, w * 3, 3, dst.data.bytes, dst.strideBytes, 3, h, w, FloatToU8, 0);
      case U8_RGBA =>
        ConvertRows(pixels, w * 3, 3, dst.data.bytes, dst.strideBytes, 4, h, w, FloatToU8, 255);
      case F32_RGB =>
        CopyRows(pixels, w * 3, dst.data.floats, dst.strideBytes / 4, h, w * 3);
      case Unrecognized =>
        return false;
    }
    return true;
  }

  /** Reading back a float view written from a packed image gives the
      image's packed pixels. */
  lemma FloatsBackRoundTrip(img: Image, d0: seq<real>, stride: nat)
    requires img.width > 0 && |img.pixels| == img.height * img.width * 3
    requires img.width * 3 <= stride && RowsFit(img.height, stride, img.width * 3, |d0|)
    ensures RowsFit(img.height, stride, img.width * 3, |FloatsBack(img, d0, stride)|)
    ensures PackedView(FloatsBack(img, d0, stride), stride, 3, img.width, img.height, Identity) == img.pixels
  {
    var w, h := img.width, img.height;
    PackedFits(h, w, |img.pixels|);
    var d := FloatsBack(img, d0, stride);
    var p := PackedView(d, stride, 3, w, h, Identity);
    forall k | 0 <= k < |p| ensures p[k] == img.pixels[k] {
      EncodeDecode(h, w, 3, k);
      var y, x, c := RowOf(w, 3, k), ColOf(w, 3, k), ChanOf(w, 3, k);
      IdxAsOff(w, 3, y, x, c);
      IdxBound(h, w, 3, y, x, c);
      CopiedRowsPayload(img.pixels, w * 3, d0, stride, h, w * 3, y, x * 3 + c);
    }
  }

  /** Reading back an 8-bit view written from a packed image gives each
      value as float_to_u8 leaves it, which for values in [0, 1] is within
      half a step of 1/255 of the value. */
  lemma BytesBackRoundTrip(img: Image, pix: nat, fill: byte, d0: seq<byte>, stride: nat, k: nat)
    requires img.width > 0 && |img.pixels| == img.height * img.width * 3
    requires (pix == 3 || pix == 4) && img.width * pix <= stride
    requires RowsFit(img.height, stride, img.width * pix, |d0|) && k < |img.pixels|
    ensures RowsFit(img.height, stride, img.width * pix, |BytesBack(img, pix, fill, d0, stride)|)
    ensures PackedView(BytesBack(img, pix, fill, d0, stride), stride, pix, img.width, img.height, U8ToFloat)[k]
              == U8ToFloat(FloatToU8(img.pixels[k]))
  {
    var w, h := img.width, img.height;
    PackedFits(h, w, |img.pixels|);
    EncodeDecode(h, w, 3, k);
    var y, x, c := RowOf(w, 3, k), ColOf(w, 3, k), ChanOf(w, 3, k);
    IdxAsOff(w, 3, y, x, c);
    ConvertedRowsPixel(img.pixels, w * 3, 3, d0, stride, pix, h, w, FloatToU8, fill, y, x, c);
  }

  // resize.

  /** The only resampling mode, ResampleMode::Cubic. */
  const CubicMode: int := 0

  /** The destination size resize expects: the source size times the scale,
      rounded half away from zero (std::llround). */
  function TargetSize(size: nat, scale: real): int {
    RoundHalfAway(ExpectedSize(size, scale))
  }

  /** The unrounded destination size, computed in double precision. */
  function ExpectedSize(size: nat, scale: real): real {
    size as real * scale
  }

  /** resize succeeds exactly for two valid views, positive scales, the
      cubic mode, and a destination whose size is the non-zero target size. */
  predicate ResizeAccepts(src: CpuImage, dst: CpuImage, scaleX: real, scaleY: real, mode: int) {
    ValidateImage(src) && ValidateImage(dst) && scaleX > 0.0 && scaleY > 0.0 && mode == CubicMode &&
    TargetSize(src.width, scaleX) > 0 && TargetSize(src.height, scaleY) > 0 &&
    dst.width == TargetSize(src.width, scaleX) && dst.height == TargetSize(src.height, scaleY)
  }

  /** A positive size times a positive scale is positive. */
  lemma ExpectedPositive(size: nat, scale: real)
    requires size > 0 && scale > 0.0
    ensures ExpectedSize(size, scale) > 0.0
  {
  }

  /** The image copied from a view has three channels. */
  lemma ViewImageChannels(src: CpuImage)
    requires ValidateImage(src) && Backed(src)
    ensures ComputeChannels(ViewImage(src)) == 3
  {
    var img := ViewImage(src);
    assert |img.pixels| == img.width * img.height * 3;
    ComputeChannelsExact(img, 3);
  }

  /** resize. On failure nothing is written. On success the destination
      holds the cubic resampling of the source's image to the destination's
      size, in the destination's format. The source is copied before the
      destination is written, so the two views may share memory. */
  method ResizeView(src: CpuImage, dst: CpuImage, scaleX: real, scaleY: real, mode: int) returns (ok: bool)
    requires Backed(src) && Backed(dst)
    modifies Objs(dst.data)
    ensures ok <==> ResizeAccepts(src, dst, scaleX, scaleY, mode)
    ensures !ok ==> unchanged(Objs(dst.data))
    ensures ok ==> |Resampled(old(ViewImage(src)), dst.width, dst.height).pixels| == dst.height * dst.width * 3
    ensures ok && dst.pixelType == U8_RGB ==>
      dst.data.bytes[..] == BytesBack(Resampled(old(ViewImage(src)), dst.width, dst.height), 3, 0,
                                      old(dst.data.bytes[..]), dst.strideBytes)
    ensures ok && dst.pixelType == U8_RGBA ==>
      dst.data.bytes[..] == BytesBack(Resampled(old(ViewImage(src)), dst.width, dst.height), 4, 255,
                                      old(dst.data.bytes[..]), dst.strideBytes)
    ensures ok && dst.pixelType == F32_RGB ==>
      dst.data.floats[..] == FloatsBack(Resampled(old(ViewImage(src)), dst.width, dst.height),
                                        old(dst.data.floats[..]), dst.strideBytes / 4)
  {
    var accepted := ResizeChecks(src, dst, scaleX, scaleY, mode);
    if !accepted {
      return false;
    }
    ok := ResizeAccepted(src, dst);
  }

  /** The checks of resize, in its order: both views valid, positive
      scales, the cubic mode, a positive expected size, a non-zero rounded
      target size, and a destination of exactly that size. */
  method ResizeChecks(src: CpuImage, dst: CpuImage, scaleX: real, scaleY: real, mode: int) returns (accepted: bool)
    ensures accepted <==> ResizeAccepts(src, dst, scaleX, scaleY, mode)
  {
    if !ValidateImage(src) || !ValidateImage(dst) {
      return false;
    }
    if scaleX <= 0.0 || scaleY <= 0.0 {
      return false;
    }
    if mode != CubicMode {
      return false;
    }
    var expectedWidth := ExpectedSize(src.width, scaleX);
    var expectedHeight := ExpectedSize(src.height, scaleY);
    ExpectedPositive(src.width, scaleX);
    ExpectedPositive(src.height, scaleY);
    if expectedWidth <= 0.0 || expectedHeight <= 0.0 {
      return false;
    }
    var targetWidth := RoundHalfAway(expectedWidth);
    var targetHeight := RoundHalfAway(expectedHeight);
    if targetWidth <= 0 || targetHeight <= 0 {
      return false;
    }
    if dst.width != targetWidth || dst.height != targetHeight {
      return false;
    }
    return true;
  }

  /** The part of resize past its checks: copy the source view into an
      image, resample it to the destination's size and write it back. */
  method ResizeAccepted(src: CpuImage, dst: CpuImage) returns (ok: bool)
    requires Backed(src) && Backed(dst)
    requires ValidateImage(src) && ValidateImage(dst)
    modifies Objs(dst.data)
    ensures ok
    ensures |Resampled(old(ViewImage(src)), dst.width, dst.height).pixels| == dst.height * dst.width * 3
    ensures dst.pixelType == U8_RGB ==>
      dst.data.bytes[..] == BytesBack(Resampled(old(ViewImage(src)), dst.width, dst.height), 3, 0,
                                      old(dst.data.bytes[..]), dst.strideBytes)
    ensures dst.pixelType == U8_RGBA ==>
      dst.data.bytes[..] == BytesBack(Resampled(old(ViewImage(src)), dst.width, dst.height), 4, 255,
                                      old(dst.data.bytes[..]), dst.strideBytes)
    ensures dst.pixelType == F32_RGB ==>
      dst.data.floats[..] == FloatsBack(Resampled(old(ViewImage(src)), dst.width, dst.height),
                                        old(dst.data.floats[..]), dst.strideBytes / 4)
  {
    var copied, srcImage := CopyCpuToImage(src, Image(0, 0, []));
    if !copied {
      return false;
    }
    ViewImageChannels(src);
    var resized := ResampleCubic(srcImage, dst.width, dst.height);
    ResampledShape(srcImage, dst.width, dst.height);
    if |resized.pixels| == 0 {
      return false;
    }
    assert dst.width * dst.height * 3 == dst.height * dst.width * 3;
    ok := CopyImageToCpu(resized, dst);
  }
}
