// The security heuristics of src/common/security.cpp: a scan of a byte
// buffer for the signatures of other file formats, and a pixel-count cap.

module Security {
  import opened Arith
  import opened PixelOps

  // ---------------------------------------------------------------------
  // Signature search.

  /** The needle occurs in the buffer at offset i. */
  predicate OccursAt(hay: seq<byte>, needle: seq<byte>, i: nat) {
    i + |needle| <= |hay| && hay[i..i + |needle|] == needle
  }

  /** std::search from offset i: the first offset at or after i where a
      non-empty needle occurs, or |hay| (the end iterator) when there is
      none. */
  function SearchFrom(hay: seq<byte>, needle: seq<byte>, i: nat): (r: nat)
    requires |needle| > 0 && i <= |hay|
    ensures r == |hay| || (i <= r && OccursAt(hay, needle, r))
    ensures forall j :: i <= j < r && j <= |hay| ==> !OccursAt(hay, needle, j)
    ensures r == |hay| ==> forall j :: i <= j <= |hay| ==> !OccursAt(hay, needle, j)
    decreases |hay| - i
  {
    if i + |needle| > |hay| then |hay|
    else if hay[i..i + |needle|] == needle then i
    else SearchFrom(hay, needle, i + 1)
  }

  /** contains_signature over a buffer that is null (None) or holds `size`
      bytes: false for an empty needle, a null buffer or a buffer shorter
      than the needle, and otherwise whether std::search finds the needle. */
  function ContainsSignature(data: Option<seq<byte>>, needle: seq<byte>): (r: bool)
    ensures r <==> |needle| > 0 && data.Some? && |needle| <= |data.value| &&
                   exists i :: 0 <= i <= |data.value| - |needle| && OccursAt(data.value, needle, i)
  {
    if |needle| == 0 || data.None? || |data.value| < |needle| then false
    else
      var hay := data.value;
      var found := SearchFrom(hay, needle, 0);
      if found != |hay| then true
      else
        assert forall i :: 0 <= i <= |hay| - |needle| ==> !OccursAt(hay, needle, i);
        false
  }

  // ---------------------------------------------------------------------
  // The polyglot scan.

  /** The bytes of an ASCII string. */
  function Ascii(s: string): (b: seq<byte>)
    requires forall i :: 0 <= i < |s| ==> s[i] as int < 128
    ensures |b| == |s| && forall i :: 0 <= i < |s| ==> b[i] == s[i] as int
  {
    seq(|s|, i requires 0 <= i < |s| => s[i] as int)
  }

  /** The eight signatures, in the order they are tried: PDF, ZIP, XZ, RAR,
      XML, an SGML/HTML doctype, a DOS/PE executable and ELF. */
  function Signatures(): (sigs: seq<seq<byte>>)
    ensures |sigs| == 8
    ensures forall j :: 0 <= j < 8 ==> |sigs[j]| > 0
  {
    [Ascii("%PDF-"), Ascii("PK") + [3, 4], Ascii("7zXZ"), Ascii("Rar!"),
     Ascii("<?xml"), Ascii("<!DOCTYPE"), Ascii("MZ"), Ascii("ELF")]
  }

  /** Whether one of sigs[j..] occurs, tried in order with an early return. */
  function AnySignatureFrom(data: Option<seq<byte>>, sigs: seq<seq<byte>>, j: nat): (r: bool)
    requires j <= |sigs|
    ensures r <==> exists k :: j <= k < |sigs| && ContainsSignature(data, sigs[k])
    decreases |sigs| - j
  {
    if j == |sigs| then false
    else if ContainsSignature(data, sigs[j]) then true
    else AnySignatureFrom(data, sigs, j + 1)
  }

  /** suspicious_polyglot_bytes: false for a null or empty buffer, and
      otherwise whether one of the eight signatures occurs in it. */
  function SuspiciousPolyglotBytes(data: Option<seq<byte>>): (r: bool)
    ensures r <==> data.Some? && |data.value| > 0 &&
                   exists k :: 0 <= k < 8 && ContainsSignature(data, Signatures()[k])
  {
    if data.None? || |data.value| == 0 then false
    else AnySignatureFrom(data, Signatures(), 0)
  }

  /** The guard against a null or empty buffer changes no answer: no
      signature occurs in either. */
  lemma PolyglotGuardRedundant(data: Option<seq<byte>>)
    ensures SuspiciousPolyglotBytes(data) <==> exists k :: 0 <= k < 8 && ContainsSignature(data, Signatures()[k])
  {
    if data.None? || |data.value| == 0 {
      forall k | 0 <= k < 8 ensures !ContainsSignature(data, Signatures()[k]) {
      }
    }
  }

  /** The first bytes of the eight signatures: '%', 'P', '7', 'R', '<',
      'M' and 'E'. */
  predicate LeadByte(b: byte) {
    b == 37 || b == 80 || b == 55 || b == 82 || b == 60 || b == 77 || b == 69
  }

  /** A buffer none of whose bytes starts a signature is not suspicious. */
  lemma NoLeadByteNotSuspicious(data: seq<byte>)
    requires forall k :: 0 <= k < |data| ==> !LeadByte(data[k])
    ensures !SuspiciousPolyglotBytes(Some(data))
  {
    var sigs := Signatures();
    forall j, i | 0 <= j < 8 && 0 <= i <= |data| - |sigs[j]|
      ensures !OccursAt(data, sigs[j], i)
    {
      assert LeadByte(sigs[j][0]);
      OccursAtHead(data, sigs[j], i);
    }
  }

  /** An occurrence of a non-empty needle starts with the needle's first byte. */
  lemma OccursAtHead(hay: seq<byte>, needle: seq<byte>, i: nat)
    ensures OccursAt(hay, needle, i) && |needle| > 0 ==> i < |hay| && hay[i] == needle[0]
  {
    if OccursAt(hay, needle, i) && |needle| > 0 {
      assert hay[i] == hay[i..i + |needle|][0];
    }
  }

  /** A buffer in which one of the signatures occurs at some offset (as
      in each of the tests' eight positive buffers) is suspicious. */
  lemma SignatureDetected(data: seq<byte>, k: nat, i: nat)
    requires k < 8 && OccursAt(data, Signatures()[k], i)
    ensures SuspiciousPolyglotBytes(Some(data))
  {
    assert i <= |data| - |Signatures()[k]|;
  }

  /** In particular a buffer that starts with a signature is suspicious. */
  lemma SignatureAtStartDetected(data: seq<byte>, k: nat)
    requires k < 8 && |Signatures()[k]| <= |data| && data[..|Signatures()[k]|] == Signatures()[k]
    ensures SuspiciousPolyglotBytes(Some(data))
  {
    SignatureDetected(data, k, 0);
  }

  /** The ELF test buffer 0x7f "ELF" 0x02, whose signature starts at
      offset 1, is suspicious. */
  lemma ElfAtOffsetOneSuspicious()
    ensures SuspiciousPolyglotBytes(Some([127] + Ascii("ELF") + [2]))
  {
    var data: seq<byte> := [127] + Ascii("ELF") + [2];
    assert data[1..4] == Signatures()[7];
    SignatureDetected(data, 7, 1);
  }

  /** Plain text is not suspicious. */
  lemma PlainTextNotSuspicious()
    ensures !SuspiciousPolyglotBytes(Some(Ascii("plain data with no signatures")))
  {
    NoLeadByteNotSuspicious(Ascii("plain data with no signatures"));
  }

  /** The every-other-byte views of "abcdefgh" and "safe-bytes" are not
      suspicious. */
  lemma StridedBuffersNotSuspicious()
    ensures !SuspiciousPolyglotBytes(Some(Ascii("aceg")))
    ensures !SuspiciousPolyglotBytes(Some(Ascii("sf-ye")))
  {
    NoLeadByteNotSuspicious(Ascii("aceg"));
    NoLeadByteNotSuspicious(Ascii("sf-ye"));
  }

  /** A PDF header is suspicious; a null or empty buffer is not. */
  lemma PdfHeaderSuspicious()
    ensures SuspiciousPolyglotBytes(Some(Ascii("%PDF-1.7\n")))
    ensures !SuspiciousPolyglotBytes(None) && !SuspiciousPolyglotBytes(Some([]))
  {
    var data := Ascii("%PDF-1.7\n");
    assert data[..5] == Ascii("%PDF-");
    SignatureAtStartDetected(data, 0);
  }

  // ---------------------------------------------------------------------
  // The pixel cap.

  const Megapixel: nat := 1000000

  /** exceeds_pixel_cap for a finite cap in megapixels: never for an empty
      image, always for a cap that is not positive, and otherwise whether
      the pixel count is above the cap. */
  function ExceedsPixelCap(width: nat, height: nat, capMegapixels: real): (r: bool)
    ensures r <==> width > 0 && height > 0 &&
                   (capMegapixels <= 0.0 || (width * height) as real > capMegapixels * Megapixel as real)
  {
    if width == 0 || height == 0 then false
    else if capMegapixels <= 0.0 then true
    else
      var limitPixels := capMegapixels * Megapixel as real;
      if limitPixels <= 0.0 then true
      else
        var totalPixels := (width * height) as real;
        totalPixels > limitPixels
  }

  /** A larger cap flags no image a smaller cap lets through, and a larger
      image is flagged whenever a smaller one is. */
  lemma PixelCapMonotone(w1: nat, h1: nat, w2: nat, h2: nat, c1: real, c2: real)
    requires c1 <= c2 && 0 < w1 <= w2 && 0 < h1 <= h2
    ensures ExceedsPixelCap(w1, h1, c2) ==> ExceedsPixelCap(w2, h2, c1)
  {
    assert w1 * h1 <= w2 * h1 <= w2 * h2;
    if c1 > 0.0 {
      assert c1 * Megapixel as real <= c2 * Megapixel as real;
    }
  }

  /** The cases of the tests: a 12-megapixel image is within a 12-megapixel
      cap, a 24-megapixel one is not, a zero cap flags any image and an
      empty image is never flagged. */
  lemma PixelCapExamples()
    ensures !ExceedsPixelCap(4000, 3000, 12.0)
    ensures ExceedsPixelCap(6000, 4000, 12.0)
    ensures ExceedsPixelCap(1, 1, 0.0)
    ensures !ExceedsPixelCap(0, 123, 1.0)
  {
  }
}
