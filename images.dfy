// The buffer descriptors of include/pixmask/image.h: the three pixel
// formats and their sizes, the caller-owned strided view CpuImage, and the
// owned packed float image Image.
module Images {
  import opened Arith

  /** The pixel formats. `Unrecognized` stands for any other value of the
      32-bit enum, for which every size query answers 0. */
  datatype PixelType = U8_RGB | U8_RGBA | F32_RGB | Unrecognized

  /** sizeof(float) on the platforms the library targets. */
  const SizeOfFloat: nat := 4

  function PixelChannels(t: PixelType): nat {
    match t
    case U8_RGB => 3
    case F32_RGB => 3
    case U8_RGBA => 4
    case Unrecognized => 0
  }

  function BytesPerChannel(t: PixelType): nat {
    match t
    case U8_RGB => 1
    case U8_RGBA => 1
    case F32_RGB => SizeOfFloat
    case Unrecognized => 0
  }

  function BytesPerPixel(t: PixelType): nat {
    PixelChannels(t) * BytesPerChannel(t)
  }

  /** The size tables: 3, 4 and 3 channels; 1, 1 and 4 bytes per channel;
      hence 3, 4 and 12 bytes per pixel, and 0 for anything else. */
  lemma FormatTable()
    ensures PixelChannels(U8_RGB) == 3 && PixelChannels(F32_RGB) == 3 && PixelChannels(U8_RGBA) == 4
    ensures BytesPerChannel(U8_RGB) == 1 && BytesPerChannel(U8_RGBA) == 1 && BytesPerChannel(F32_RGB) == 4
    ensures BytesPerPixel(U8_RGB) == 3 && BytesPerPixel(U8_RGBA) == 4 && BytesPerPixel(F32_RGB) == 12
    ensures BytesPerPixel(Unrecognized) == 0 && BytesPerChannel(Unrecognized) == 0
  {
  }

  /** Bytes per pixel is the channel count times the channel size, and it is
      zero exactly for an unrecognized format. */
  lemma BytesPerPixelFactors(t: PixelType)
    ensures BytesPerPixel(t) == PixelChannels(t) * BytesPerChannel(t)
    ensures BytesPerPixel(t) == 0 <==> t == Unrecognized
    ensures BytesPerChannel(t) > 0 ==> BytesPerPixel(t) % BytesPerChannel(t) == 0
  {
  }

  /** The memory a view's `data` pointer refers to. Eight-bit formats are
      addressed byte by byte; the float format is addressed float by float,
      so byte offset `y * stride_bytes + 4 * j` is float `y * (stride_bytes / 4) + j`. */
  datatype Storage = Null | Bytes(bytes: array<byte>) | Floats(floats: array<real>)

  function Objs(s: Storage): set<object> {
    match s
    case Null => {}
    case Bytes(b) => {b}
    case Floats(f) => {f}
  }

  /** A non-owning view of caller memory (struct CpuImage). The datatype
      constructor plays the role of the five-argument C++ constructor: it
      stores exactly the format, width, height, stride and pointer given. */
  datatype CpuImage = CpuImage(pixelType: PixelType, width: nat, height: nat,
                               strideBytes: nat, data: Storage)
  {
    /** Payload bytes of one row, without the padding up to the stride. */
    function RowBytes(): (n: nat)
      ensures n == width * BytesPerPixel(pixelType)
    {
      width * BytesPerPixel(pixelType)
    }

    predicate IsContiguous() {
      strideBytes == RowBytes()
    }
  }

  /** The default-constructed view: U8_RGB, 0 x 0, stride 0, null data. */
  function DefaultCpuImage(): (img: CpuImage)
    ensures img.pixelType == U8_RGB && img.width == 0 && img.height == 0
    ensures img.strideBytes == 0 && img.data == Null
  {
    CpuImage(U8_RGB, 0, 0, 0, Null)
  }

  /** A payload bytes-per-row of width w in format t: 3w, 4w or 12w. */
  lemma RowBytesTable(img: CpuImage)
    ensures img.pixelType == U8_RGB ==> img.RowBytes() == 3 * img.width
    ensures img.pixelType == U8_RGBA ==> img.RowBytes() == 4 * img.width
    ensures img.pixelType == F32_RGB ==> img.RowBytes() == 12 * img.width
    ensures img.IsContiguous() <==> img.strideBytes == img.width * BytesPerPixel(img.pixelType)
  {
  }

  /** Rows `0 .. rows-1` of `rowLen` elements each, `stride` apart, fit in
      `n` elements of memory. */
  predicate RowsFit(rows: nat, stride: nat, rowLen: nat, n: nat) {
    rows == 0 || (rows - 1) * stride + rowLen <= n
  }

  /** The caller's obligation on a view: the memory behind a non-null
      pointer holds `height` rows of the view's format. It is what C++ leaves
      to the caller and can not check. */
  ghost predicate Backed(img: CpuImage) {
    match img.data
    case Null => true
    case Bytes(b) =>
      (img.pixelType == U8_RGB || img.pixelType == U8_RGBA) &&
      RowsFit(img.height, img.strideBytes, img.RowBytes(), b.Length)
    case Floats(f) =>
      img.pixelType == F32_RGB &&
      RowsFit(img.height, img.strideBytes / SizeOfFloat, img.width * 3, f.Length)
  }

  /** Two views do not share memory. */
  predicate Disjoint(a: Storage, b: Storage) {
    Objs(a) !! Objs(b)
  }

  /** The owned float image (struct Image): `pixels` holds
      `width * height * channels` interleaved values. */
  datatype Image = Image(width: nat, height: nat, pixels: seq<real>)
}
