// Validation and format conversion of caller-owned views
// (src/common/pixel_ops.h): validate_image, float_to_u8, copy_image_bytes
// and convert_image, with their C entry points.
module PixelOps {
  import opened Arith
  import opened Grid
  import opened Images

  /** kInv255: the scale that maps an 8-bit channel into [0, 1]. */
  const Inv255: real := 1.0 / 255.0

  /** validate_image: a view is usable when its format is known, it is not
      empty, its stride holds a row, its pointer is set and its stride is a
      whole number of channels. */
  function ValidateImage(img: CpuImage): (ok: bool)
    ensures ok ==> img.RowBytes() > 0 && img.strideBytes >= img.RowBytes() && img.data != Null
    ensures ok ==> img.pixelType != Unrecognized && img.width > 0 && img.height > 0
    ensures ok && img.pixelType == F32_RGB ==> img.strideBytes % 4 == 0 && img.strideBytes / 4 >= 3 * img.width
  {
    var bpp := BytesPerPixel(img.pixelType);
    if bpp == 0 then false
    else if img.width == 0 || img.height == 0 then false
    else if img.strideBytes < img.RowBytes() then false
    else if img.data == Null then false
    else
      var channelSize := BytesPerChannel(img.pixelType);
      if channelSize == 0 || img.strideBytes % channelSize != 0 then false
      else true
  }

  /** The conditions validate_image checks, each one necessary. */
  lemma ValidateImageExact(img: CpuImage)
    ensures ValidateImage(img) <==>
      img.pixelType != Unrecognized && img.width > 0 && img.height > 0 &&
      img.strideBytes >= img.width * BytesPerPixel(img.pixelType) && img.data != Null &&
      img.strideBytes % BytesPerChannel(img.pixelType) == 0
  {
  }

  /** A 4 x 2 RGB view whose stride (10) is shorter than its row (12) is rejected. */
  lemma ShortStrideRejected(data: Storage)
    ensures !ValidateImage(CpuImage(U8_RGB, 4, 2, 10, data))
  {
  }

  /** pixmask_validate_image: the C entry point; a null pointer is invalid. */
  function CValidateImage(img: Option<CpuImage>): (ok: bool)
    ensures ok <==> img.Some? && ValidateImage(img.value)
  {
    match img
    case None => false
    case Some(i) => ValidateImage(i)
  }

  /** The value of an 8-bit channel as a float in [0, 1]. */
  function U8ToFloat(b: byte): (v: real)
    ensures 0.0 <= v <= 1.0
    ensures v * 255.0 == b as real
  {
    b as real * Inv255
  }

  /** float_to_u8: clamp to [0, 1], scale by 255, round half away from zero
      and clamp to [0, 255]. */
  function FloatToU8(value: real): (b: byte)
    ensures value <= 0.0 ==> b == 0
    ensures value >= 1.0 ==> b == 255
    ensures 0.0 <= value <= 1.0 ==> value * 255.0 - 0.5 <= b as real <= value * 255.0 + 0.5
  {
    var v := Clamp01(value);
    var scaled := RoundHalfAway(v * 255.0);
    ClampInt(scaled, 0, 255)
  }

  /** std::clamp on integers, for lo <= hi. */
  function ClampInt(v: int, lo: int, hi: int): (r: int)
    requires lo <= hi
    ensures lo <= r <= hi
    ensures lo <= v <= hi ==> r == v
  {
    if v < lo then lo else if v > hi then hi else v
  }

  /** Converting an 8-bit channel to float and back restores it exactly. */
  lemma U8RoundTrip(b: byte)
    ensures FloatToU8(U8ToFloat(b)) == b
  {
    var v := U8ToFloat(b);
    assert v * 255.0 == b as real;
    assert Clamp01(v) == v;
    assert (b as real + 0.5).Floor == b;
  }

  /** float_to_u8 never decreases as its argument grows. */
  lemma FloatToU8Monotone(u: real, v: real)
    requires u <= v
    ensures FloatToU8(u) <= FloatToU8(v)
  {
    var cu, cv := Clamp01(u), Clamp01(v);
    assert cu <= cv;
    assert cu * 255.0 <= cv * 255.0;
    assert (cu * 255.0 + 0.5).Floor <= (cv * 255.0 + 0.5).Floor;
  }

  // ---------------------------------------------------------------------
  // Row copies: copy_image_bytes.

  /** Element k of the destination after copying `rows` rows of `len`
      elements: payload elements take the source element with the same row
      and column, everything else keeps its old value. */
  function CopiedAt<T>(s: seq<T>, sStride: nat, d0: seq<T>, dStride: nat,
                       rows: nat, len: nat, k: nat): T
    requires 0 < len <= sStride && len <= dStride
    requires RowsFit(rows, sStride, len, |s|) && k < |d0|
  {
    if InRows(dStride, rows, len, k) then
      OffBound(rows, sStride, len, |s|, RowAt(dStride, k), ColAt(dStride, k));
      s[Off(sStride, RowAt(dStride, k), ColAt(dStride, k))]
    else d0[k]
  }

  function CopiedRows<T>(s: seq<T>, sStride: nat, d0: seq<T>, dStride: nat,
                         rows: nat, len: nat): (d: seq<T>)
    requires 0 < len <= sStride && len <= dStride
    requires RowsFit(rows, sStride, len, |s|)
    ensures |d| == |d0|
  {
    seq(|d0|, k requires 0 <= k < |d0| => CopiedAt(s, sStride, d0, dStride, rows, len, k))
  }

  /** After the copy, element j of row y of the destination is element j of
      row y of the source. */
  lemma CopiedRowsPayload<T>(s: seq<T>, sStride: nat, d0: seq<T>, dStride: nat,
                             rows: nat, len: nat, y: nat, j: nat)
    requires 0 < len <= sStride && len <= dStride
    requires RowsFit(rows, sStride, len, |s|) && RowsFit(rows, dStride, len, |d0|)
    requires y < rows && j < len
    ensures Off(dStride, y, j) < |d0| && Off(sStride, y, j) < |s|
    ensures CopiedRows(s, sStride, d0, dStride, rows, len)[Off(dStride, y, j)] == s[Off(sStride, y, j)]
  {
    OffBound(rows, dStride, len, |d0|, y, j);
    OffBound(rows, sStride, len, |s|, y, j);
    OffDecode(dStride, y, j);
  }

  /** Row padding (columns at or past `len`) and the memory past the last
      row keep their old contents. */
  lemma CopiedRowsPadding<T>(s: seq<T>, sStride: nat, d0: seq<T>, dStride: nat,
                             rows: nat, len: nat, k: nat)
    requires 0 < len <= sStride && len <= dStride
    requires RowsFit(rows, sStride, len, |s|) && k < |d0|
    requires k % dStride >= len || k / dStride >= rows
    ensures CopiedRows(s, sStride, d0, dStride, rows, len)[k] == d0[k]
  {
  }

  /** The memcpy of one row: elements [dBase, dBase + len) of dst receive
      elements [sBase, sBase + len) of src. */
  method CopyRow<T>(src: array<T>, sBase: nat, dst: array<T>, dBase: nat, len: nat)
    requires sBase + len <= src.Length && dBase + len <= dst.Length
    requires src != dst
    modifies dst
    ensures forall k :: 0 <= k < dst.Length ==>
      dst[k] == if dBase <= k < dBase + len then src[sBase + (k - dBase)] else old(dst[k])
  {
    forall j | 0 <= j < len {
      dst[dBase + j] := src[sBase + j];
    }
  }

  /** copy_image_bytes over one storage kind: `rows` rows of `len` elements. */
  method CopyRows<T>(src: array<T>, sStride: nat, dst: array<T>, dStride: nat, rows: nat, len: nat)
    requires 0 < len <= sStride && len <= dStride
    requires RowsFit(rows, sStride, len, src.Length) && RowsFit(rows, dStride, len, dst.Length)
    requires src != dst
    modifies dst
    ensures dst[..] == CopiedRows(src[..], sStride, old(dst[..]), dStride, rows, len)
  {
    for y := 0 to rows
      invariant forall k :: 0 <= k < dst.Length ==>
        dst[k] == CopiedAt(src[..], sStride, old(dst[..]), dStride, y, len, k)
    {
      OffBound(rows, sStride, len, src.Length, y, 0);
      OffBound(rows, dStride, len, dst.Length, y, 0);
      ghost var before := dst[..];
      CopyRow(src, Off(sStride, y, 0), dst, Off(dStride, y, 0), len);
      forall k | 0 <= k < dst.Length
        ensures dst[k] == CopiedAt(src[..], sStride, old(dst[..]), dStride, y + 1, len, k)
      {
        RowWindow(dStride, len, y, k);
        assert before[k] == CopiedAt(src[..], sStride, old(dst[..]), dStride, y, len, k);
      }
    }
  }

  // ---------------------------------------------------------------------
  // Per-pixel conversions between packed 3- or 4-channel rows.

  /** Element r of a converted row: channel r % dPix of pixel r / dPix is
      f of the same channel of the source pixel; a fourth destination
      channel is `fill`. */
  function PixelValue<A, B>(s: seq<A>, base: nat, sPix: nat, dPix: nat, cols: nat,
                            f: A -> B, fill: B, r: nat): B
    requires 3 <= sPix && (dPix == 3 || dPix == 4)
    requires base + cols * sPix <= |s| && r < cols * dPix
  {
    var x, c := r / dPix, r % dPix;
    if c < 3 then
      PixelBound(sPix, dPix, cols, r);
      f(s[base + x * sPix + c])
    else fill
  }

  lemma PixelBound(sPix: nat, dPix: nat, cols: nat, r: nat)
    requires 3 <= sPix && (dPix == 3 || dPix == 4) && r < cols * dPix && r % dPix < 3
    ensures (r / dPix) * sPix + r % dPix < cols * sPix
  {
    var x := r / dPix;
    assert r == x * dPix + r % dPix;
    if x >= cols {
      MulMonoLeft(cols, x, dPix);
    }
    MulMonoLeft(x + 1, cols, sPix);
  }

  /** The value of element c of pixel x of a converted row. */
  lemma PixelValueAt<A, B>(s: seq<A>, base: nat, sPix: nat, dPix: nat, cols: nat,
                           f: A -> B, fill: B, x: nat, c: nat)
    requires 3 <= sPix && (dPix == 3 || dPix == 4)
    requires base + cols * sPix <= |s| && x < cols && c < dPix
    ensures x * dPix + c < cols * dPix && x * sPix + c < cols * sPix + 1
    ensures c < 3 ==> (base + x * sPix + c < |s| &&
      PixelValue(s, base, sPix, dPix, cols, f, fill, x * dPix + c) == f(s[base + x * sPix + c]))
    ensures c == 3 ==> PixelValue(s, base, sPix, dPix, cols, f, fill, x * dPix + c) == fill
  {
    MulMonoLeft(x + 1, cols, dPix);
    MulMonoLeft(x + 1, cols, sPix);
    DivModUnique(x * dPix + c, dPix, x, c);
  }

  /** One row of a conversion loop: for each of `cols` pixels, three
      converted channels and, for a 4-channel destination, the fill value. */
  method ConvertRow<A, B>(src: array<A>, sBase: nat, sPix: nat, dst: array<B>, dBase: nat,
                          dPix: nat, cols: nat, f: A -> B, fill: B)
    requires 3 <= sPix && (dPix == 3 || dPix == 4)
    requires sBase + cols * sPix <= src.Length && dBase + cols * dPix <= dst.Length
    requires src as object != dst as object
    modifies dst
    ensures forall k :: 0 <= k < dst.Length ==>
      dst[k] == if dBase <= k < dBase + cols * dPix
                then PixelValue(src[..], sBase, sPix, dPix, cols, f, fill, k - dBase)
                else old(dst[k])
  {
    for x := 0 to cols
      invariant forall k :: 0 <= k < dst.Length ==>
        dst[k] == if dBase <= k < dBase + x * dPix
                  then PixelValue(src[..], sBase, sPix, dPix, cols, f, fill, k - dBase)
                  else old(dst[k])
    {
      MulMonoLeft(x + 1, cols, sPix);
      MulMonoLeft(x + 1, cols, dPix);
      assert (x + 1) * dPix == x * dPix + dPix;
      assert (x + 1) * sPix == x * sPix + sPix;
      ghost var before := dst[..];
      WritePixel(src, sBase + x * sPix, dst, dBase + x * dPix, dPix, f, fill);
      forall k | 0 <= k < dst.Length
        ensures dst[k] == if dBase <= k < dBase + (x + 1) * dPix
                          then PixelValue(src[..], sBase, sPix, dPix, cols, f, fill, k - dBase)
                          else old(dst[k])
      {
        if dBase + x * dPix <= k < dBase + (x + 1) * dPix {
          PixelValueAt(src[..], sBase, sPix, dPix, cols, f, fill, x, k - dBase - x * dPix);
        } else {
          assert dst[k] == before[k];
        }
      }
    }
  }

  /** The body of a conversion loop for one pixel: three converted channels
      at p, p + 1, p + 2 and, for a 4-channel destination, `fill` at p + 3. */
  method WritePixel<A, B>(src: array<A>, q: nat, dst: array<B>, p: nat, dPix: nat, f: A -> B, fill: B)
    requires dPix == 3 || dPix == 4
    requires q + 3 <= src.Length && p + dPix <= dst.Length
    requires src as object != dst as object
    modifies dst
    ensures forall k :: 0 <= k < dst.Length ==>
      dst[k] == if p <= k < p + dPix
                then (if k - p < 3 then f(old(src[q + (k - p)])) else fill)
                else old(dst[k])
  {
    dst[p + 0] := f(src[q + 0]);
    dst[p + 1] := f(src[q + 1]);
    dst[p + 2] := f(src[q + 2]);
    if dPix == 4 {
      dst[p + 3] := fill;
    }
  }

  /** Element k of the destination after converting `rows` rows of `cols`
      pixels; elements outside the converted payload keep their value. */
  function ConvertedAt<A, B>(s: seq<A>, sStride: nat, sPix: nat, d0: seq<B>, dStride: nat,
                             dPix: nat, rows: nat, cols: nat, f: A -> B, fill: B, k: nat): B
    requires 3 <= sPix && (dPix == 3 || dPix == 4)
    requires 0 < cols * dPix <= dStride && cols * sPix <= sStride
    requires RowsFit(rows, sStride, cols * sPix, |s|) && k < |d0|
  {
    if InRows(dStride, rows, cols * dPix, k) then
      OffBound(rows, sStride, cols * sPix, |s|, RowAt(dStride, k), 0);
      PixelValue(s, Off(sStride, RowAt(dStride, k), 0), sPix, dPix, cols, f, fill, ColAt(dStride, k))
    else d0[k]
  }

  function ConvertedRows<A, B>(s: seq<A>, sStride: nat, sPix: nat, d0: seq<B>, dStride: nat,
                               dPix: nat, rows: nat, cols: nat, f: A -> B, fill: B): (d: seq<B>)
    requires 3 <= sPix && (dPix == 3 || dPix == 4)
    requires 0 < cols * dPix <= dStride && cols * sPix <= sStride
    requires RowsFit(rows, sStride, cols * sPix, |s|)
    ensures |d| == |d0|
  {
    seq(|d0|, k requires 0 <= k < |d0| =>
      ConvertedAt(s, sStride, sPix, d0, dStride, dPix, rows, cols, f, fill, k))
  }

  /** After the conversion, channel c < 3 of pixel (x, y) of the destination
      is f of channel c of source pixel (x, y), and a fourth channel is `fill`. */
  lemma ConvertedRowsPixel<A, B>(s: seq<A>, sStride: nat, sPix: nat, d0: seq<B>, dStride: nat,
                                 dPix: nat, rows: nat, cols: nat, f: A -> B, fill: B,
                                 y: nat, x: nat, c: nat)
    requires 3 <= sPix && (dPix == 3 || dPix == 4)
    requires 0 < cols * dPix <= dStride && cols * sPix <= sStride
    requires RowsFit(rows, sStride, cols * sPix, |s|) && RowsFit(rows, dStride, cols * dPix, |d0|)
    requires y < rows && x < cols && c < dPix
    ensures Off(dStride, y, x * dPix + c) < |d0|
    ensures c < 3 ==> (Off(sStride, y, x * sPix + c) < |s| &&
      ConvertedRows(s, sStride, sPix, d0, dStride, dPix, rows, cols, f, fill)[Off(dStride, y, x * dPix + c)]
        == f(s[Off(sStride, y, x * sPix + c)]))
    ensures c == 3 ==>
      ConvertedRows(s, sStride, sPix, d0, dStride, dPix, rows, cols, f, fill)[Off(dStride, y, x * dPix + c)]
        == fill
  {
    OffBound(rows, sStride, cols * sPix, |s|, y, 0);
    PixelValueAt(s, Off(sStride, y, 0), sPix, dPix, cols, f, fill, x, c);
    OffBound(rows, dStride, cols * dPix, |d0|, y, x * dPix + c);
    OffDecode(dStride, y, x * dPix + c);
  }

  /** Bytes or floats past the converted payload of each row, and past the
      last row, keep their old contents. */
  lemma ConvertedRowsPadding<A, B>(s: seq<A>, sStride: nat, sPix: nat, d0: seq<B>, dStride: nat,
                                   dPix: nat, rows: nat, cols: nat, f: A -> B, fill: B, k: nat)
    requires 3 <= sPix && (dPix == 3 || dPix == 4)
    requires 0 < cols * dPix <= dStride && cols * sPix <= sStride
    requires RowsFit(rows, sStride, cols * sPix, |s|) && k < |d0|
    requires k % dStride >= cols * dPix || k / dStride >= rows
    ensures ConvertedRows(s, sStride, sPix, d0, dStride, dPix, rows, cols, f, fill)[k] == d0[k]
  {
  }

  /** One of the conversion loops of convert_image over `rows` rows. */
  method ConvertRows<A, B>(src: array<A>, sStride: nat, sPix: nat, dst: array<B>, dStride: nat,
                           dPix: nat, rows: nat, cols: nat, f: A -> B, fill: B)
    requires 3 <= sPix && (dPix == 3 || dPix == 4)
    requires 0 < cols * dPix <= dStride && cols * sPix <= sStride
    requires RowsFit(rows, sStride, cols * sPix, src.Length)
    requires RowsFit(rows, dStride, cols * dPix, dst.Length)
    requires src as object != dst as object
    modifies dst
    ensures dst[..] == ConvertedRows(src[..], sStride, sPix, old(dst[..]), dStride, dPix, rows, cols, f, fill)
  {
    for y := 0 to rows
      invariant forall k :: 0 <= k < dst.Length ==>
        dst[k] == ConvertedAt(src[..], sStride, sPix, old(dst[..]), dStride, dPix, y, cols, f, fill, k)
    {
      OffBound(rows, sStride, cols * sPix, src.Length, y, 0);
      OffBound(rows, dStride, cols * dPix, dst.Length, y, 0);
      ghost var before := dst[..];
      ConvertRow(src, Off(sStride, y, 0), sPix, dst, Off(dStride, y, 0), dPix, cols, f, fill);
      forall k | 0 <= k < dst.Length
        ensures dst[k] == ConvertedAt(src[..], sStride, sPix, old(dst[..]), dStride, dPix, y + 1, cols, f, fill, k)
      {
        RowWindow(dStride, cols * dPix, y, k);
        assert before[k] == ConvertedAt(src[..], sStride, sPix, old(dst[..]), dStride, dPix, y, cols, f, fill, k);
      }
    }
  }

  // ---------------------------------------------------------------------
  // convert_image.

  /** The format pairs convert_image handles: any format to itself, an
      8-bit format to float, float to an 8-bit format. */
  predicate SupportedPair(s: PixelType, d: PixelType) {
    s == d ||
    ((s == U8_RGB || s == U8_RGBA) && d == F32_RGB) ||
    (s == F32_RGB && (d == U8_RGB || d == U8_RGBA))
  }

  /** convert_image succeeds exactly for two valid views of equal size in a
      supported pair of formats. */
  predicate Convertible(src: CpuImage, dst: CpuImage) {
    ValidateImage(src) && ValidateImage(dst) &&
    src.width == dst.width && src.height == dst.height &&
    SupportedPair(src.pixelType, dst.pixelType)
  }

  /** convert_image. On failure nothing is written. On success the payload
      of every destination row is the converted source row and the padding
      of the destination is untouched: same-format views are row-copied,
      8-bit channels become b / 255, floats become float_to_u8 of the value,
      RGBA's alpha is dropped and a new alpha is 255. */
  method ConvertImage(src: CpuImage, dst: CpuImage) returns (ok: bool)
    requires Backed(src) && Backed(dst) && Disjoint(src.data, dst.data)
    modifies Objs(dst.data)
    ensures ok <==> Convertible(src, dst)
    ensures !ok ==> unchanged(Objs(dst.data))
    ensures ok && src.pixelType == dst.pixelType && dst.data.Bytes? ==>
      dst.data.bytes[..] == CopiedRows(src.data.bytes[..], src.strideBytes, old(dst.data.bytes[..]),
                                       dst.strideBytes, src.height, src.RowBytes())
    ensures ok && src.pixelType == dst.pixelType && dst.data.Floats? ==>
      dst.data.floats[..] == CopiedRows(src.data.floats[..], src.strideBytes / 4, old(dst.data.floats[..]),
                                        dst.strideBytes / 4, src.height, 3 * src.width)
    ensures ok && src.pixelType == U8_RGB && dst.pixelType == F32_RGB ==>
      dst.data.floats[..] == ConvertedRows(src.data.bytes[..], src.strideBytes, 3, old(dst.data.floats[..]),
                                           dst.strideBytes / 4, 3, src.height, src.width, U8ToFloat, 0.0)
    ensures ok && src.pixelType == U8_RGBA && dst.pixelType == F32_RGB ==>
      dst.data.floats[..] == ConvertedRows(src.data.bytes[..], src.strideBytes, 4, old(dst.data.floats[..]),
                                           dst.strideBytes / 4, 3, src.height, src.width, U8ToFloat, 0.0)
    ensures ok && src.pixelType == F32_RGB && dst.pixelType == U8_RGB ==>
      dst.data.bytes[..] == ConvertedRows(src.data.floats[..], src.strideBytes / 4, 3, old(dst.data.bytes[..]),
                                          dst.strideBytes, 3, src.height, src.width, FloatToU8, 0)
    ensures ok && src.pixelType == F32_RGB && dst.pixelType == U8_RGBA ==>
      dst.data.bytes[..] == ConvertedRows(src.data.floats[..], src.strideBytes / 4, 3, old(dst.data.bytes[..]),
                                          dst.strideBytes, 4, src.height, src.width, FloatToU8, 255)
  {
    if !ValidateImage(src) || !ValidateImage(dst) {
      return false;
    }
    if src.width != dst.width || src.height != dst.height {
      return false;
    }
    var h, w := src.height, src.width;
    if src.pixelType == dst.pixelType {
      match src.data {
        case Bytes(sb) =>
          CopyRows(sb, src.strideBytes, dst.data.bytes, dst.strideBytes, h, src.RowBytes());
        case Floats(sf) =>
          CopyRows(sf, src.strideBytes / 4, dst.data.floats, dst.strideBytes / 4, h, 3 * w);
      }
      return true;
    }
    match src.pixelType
    case U8_RGB =>
      if dst.pixelType != F32_RGB {
        return false;
      }
      ConvertRows(src.data.bytes, src.strideBytes, 3, dst.data.floats, dst.strideBytes / 4, 3, h, w, U8ToFloat, 0.0);
      return true;
    case U8_RGBA =>
      if dst.pixelType != F32_RGB {
        return false;
      }
      ConvertRows(src.data.bytes, src.strideBytes, 4, dst.data.floats, dst.strideBytes / 4, 3, h, w, U8ToFloat, 0.0);
      return true;
    case F32_RGB =>
      match dst.pixelType {
        case U8_RGB =>
          ConvertRows(src.data.floats, src.strideBytes / 4, 3, dst.data.bytes, dst.strideBytes, 3, h, w, FloatToU8, 0);
          return true;
        case U8_RGBA =>
          ConvertRows(src.data.floats, src.strideBytes / 4, 3, dst.data.bytes, dst.strideBytes, 4, h, w, FloatToU8, 255);
          return true;
        case _ =>
          return false;
      }
    case Unrecognized =>
      return false;
  }

  /** pixmask_convert_image: the C entry point; a null pointer fails. */
  method CConvertImage(src: Option<CpuImage>, dst: Option<CpuImage>) returns (ok: bool)
    requires src.Some? ==> Backed(src.value)
    requires dst.Some? ==> Backed(dst.value)
    requires src.Some? && dst.Some? ==> Disjoint(src.value.data, dst.value.data)
    modifies if dst.Some? then Objs(dst.value.data) else {}
    ensures ok <==> src.Some? && dst.Some? && Convertible(src.value, dst.value)
    ensures !ok && dst.Some? ==> unchanged(Objs(dst.value.data))
  {
    if src.None? || dst.None? {
      return false;
    }
    ok := ConvertImage(src.value, dst.value);
  }

  /** Converting 8-bit pixels to float and back leaves channel c of every
      pixel as it was, whatever the strides of the three views. */
  lemma U8FloatU8RoundTrip(s: seq<byte>, sStride: nat, sPix: nat, mid0: seq<real>, mStride: nat,
                           d0: seq<byte>, dStride: nat, rows: nat, cols: nat,
                           y: nat, x: nat, c: nat)
    requires sPix == 3 || sPix == 4
    requires 0 < cols * 3 <= mStride && cols * sPix <= sStride && cols * 3 <= dStride
    requires RowsFit(rows, sStride, cols * sPix, |s|)
    requires RowsFit(rows, mStride, cols * 3, |mid0|) && RowsFit(rows, dStride, cols * 3, |d0|)
    requires y < rows && x < cols && c < 3
    ensures Off(dStride, y, x * 3 + c) < |d0| && Off(sStride, y, x * sPix + c) < |s|
    ensures
      var mid := ConvertedRows(s, sStride, sPix, mid0, mStride, 3, rows, cols, U8ToFloat, 0.0);
      ConvertedRows(mid, mStride, 3, d0, dStride, 3, rows, cols, FloatToU8, 0)[Off(dStride, y, x * 3 + c)]
        == s[Off(sStride, y, x * sPix + c)]
  {
    var mid := ConvertedRows(s, sStride, sPix, mid0, mStride, 3, rows, cols, U8ToFloat, 0.0);
    ConvertedRowsPixel(mid, mStride, 3, d0, dStride, 3, rows, cols, FloatToU8, 0, y, x, c);
    ConvertedRowsPixel(s, sStride, sPix, mid0, mStride, 3, rows, cols, U8ToFloat, 0.0, y, x, c);
    U8RoundTrip(s[Off(sStride, y, x * sPix + c)]);
  }
}
