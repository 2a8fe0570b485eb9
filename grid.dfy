// Interleaved image layout: element (y, x, c) of a width-W image with C
// channels sits at flat index (y * W + x) * C + c, the layout of both the
// packed float images and every stage buffer of the pipeline.
module Grid {
  import opened Arith

  function Idx(w: nat, ch: nat, y: nat, x: nat, c: nat): nat {
    (y * w + x) * ch + c
  }

  /** Row, column and channel of a flat index. */
  function RowOf(w: nat, ch: nat, k: nat): nat requires w > 0 && ch > 0 { k / (w * ch) }
  function ColOf(w: nat, ch: nat, k: nat): nat requires w > 0 && ch > 0 { (k / ch) % w }
  function ChanOf(w: nat, ch: nat, k: nat): nat requires w > 0 && ch > 0 { k % ch }

  lemma MulMonoLeft(a: nat, b: nat, m: nat)
    requires a <= b
    ensures a * m <= b * m
  {
    assert b * m == a * m + (b - a) * m;
  }

  /** Every in-range coordinate lands inside the buffer of h * w * ch elements. */
  lemma IdxBound(h: nat, w: nat, ch: nat, y: nat, x: nat, c: nat)
    requires y < h && x < w && c < ch
    ensures Idx(w, ch, y, x, c) < h * w * ch
    ensures x * ch + c < w * ch
  {
    MulMonoLeft(x + 1, w, ch);
    assert (x + 1) * ch == x * ch + ch;
    MulMonoLeft(y + 1, h, w * ch);
    assert (y + 1) * (w * ch) == y * (w * ch) + w * ch;
    assert Idx(w, ch, y, x, c) == y * (w * ch) + (x * ch + c) by {
      assert (y * w + x) * ch == y * w * ch + x * ch;
      assert y * w * ch == y * (w * ch);
    }
    assert h * w * ch == h * (w * ch);
  }

  /** Decoding a flat index recovers the coordinate that produced it. */
  lemma DecodeIdx(h: nat, w: nat, ch: nat, y: nat, x: nat, c: nat)
    requires y < h && x < w && c < ch
    ensures RowOf(w, ch, Idx(w, ch, y, x, c)) == y
    ensures ColOf(w, ch, Idx(w, ch, y, x, c)) == x
    ensures ChanOf(w, ch, Idx(w, ch, y, x, c)) == c
  {
    var k := Idx(w, ch, y, x, c);
    DivModUnique(k, ch, y * w + x, c);
    DivModUnique(y * w + x, w, y, x);
    IdxBound(h, w, ch, y, x, c);
    assert k == y * (w * ch) + (x * ch + c) by {
      assert (y * w + x) * ch == y * w * ch + x * ch;
      assert y * w * ch == y * (w * ch);
    }
    DivModUnique(k, w * ch, y, x * ch + c);
  }

  /** Every flat index below h * w * ch is the index of an in-range coordinate. */
  lemma EncodeDecode(h: nat, w: nat, ch: nat, k: nat)
    requires w > 0 && ch > 0 && k < h * w * ch
    ensures RowOf(w, ch, k) < h && ColOf(w, ch, k) < w && ChanOf(w, ch, k) < ch
    ensures Idx(w, ch, RowOf(w, ch, k), ColOf(w, ch, k), ChanOf(w, ch, k)) == k
  {
    var p := k / ch;
    assert k == p * ch + k % ch;
    assert p == (p / w) * w + p % w;
    var y, x, c := p / w, p % w, k % ch;
    assert k == (y * w + x) * ch + c;
    IdxBound(y + 1, w, ch, y, x, c);
    assert k == y * (w * ch) + (x * ch + c) by {
      assert (y * w + x) * ch == y * w * ch + x * ch;
      assert y * w * ch == y * (w * ch);
    }
    DivModUnique(k, w * ch, y, x * ch + c);
    assert h * w * ch == h * (w * ch);
    if y >= h {
      MulMonoLeft(h, y, w * ch);
    }
  }

  // Strided rows: element j of row y of a buffer whose rows are `stride`
  // elements apart sits at y * stride + j.

  function Off(stride: nat, y: nat, j: nat): nat {
    y * stride + j
  }

  /** Element (y, x, c) seen as sample x of the `ch`-strided row that starts
      at channel c of row y, or as row y of the `w * ch`-strided column that
      starts at channel c of column x. */
  lemma IdxAsOff(w: nat, ch: nat, y: nat, x: nat, c: nat)
    ensures Off(ch, x, Off(w * ch, y, c)) == Idx(w, ch, y, x, c)
    ensures Off(w * ch, y, Off(ch, x, c)) == Idx(w, ch, y, x, c)
  {
    assert (y * w + x) * ch == y * (w * ch) + x * ch;
  }

  /** A pixel earlier in row-major order has all its channels before a
      later pixel. */
  lemma IdxOrder(w: nat, ch: nat, y: nat, x: nat, c: nat, y2: nat, x2: nat)
    requires x < w && c < ch && x2 <= w
    requires y < y2 || (y == y2 && x < x2)
    ensures Idx(w, ch, y, x, c) < Idx(w, ch, y2, x2, 0)
  {
    var a, b := y * w + x + 1, y2 * w + x2;
    assert Idx(w, ch, y, x, c) < a * ch by {
      assert a * ch == (y * w + x) * ch + ch;
    }
    assert a <= b by {
      if y < y2 {
        MulMonoLeft(y + 1, y2, w);
        assert (y + 1) * w == y * w + w;
      }
    }
    MulMonoLeft(a, b, ch);
  }

  /** Walking channels, then columns, then rows visits consecutive flat
      indices. */
  lemma IdxStep(w: nat, ch: nat, y: nat, x: nat)
    ensures Idx(w, ch, y, x, ch) == Idx(w, ch, y, x + 1, 0)
    ensures Idx(w, ch, y, w, 0) == Idx(w, ch, y + 1, 0, 0)
    ensures Idx(w, ch, y, 0, 0) == y * w * ch
  {
    assert (y * w + x + 1) * ch == (y * w + x) * ch + ch;
    assert (y * w + w) * ch == ((y + 1) * w) * ch;
  }

  function RowAt(stride: nat, k: nat): nat requires stride > 0 { k / stride }
  function ColAt(stride: nat, k: nat): nat requires stride > 0 { k % stride }

  /** Element k lies in the payload of one of the first `rows` rows. */
  predicate InRows(stride: nat, rows: nat, rowLen: nat, k: nat)
    requires stride > 0
  {
    RowAt(stride, k) < rows && ColAt(stride, k) < rowLen
  }

  /** The payload of row y is the window [y * stride, y * stride + rowLen). */
  lemma RowWindow(stride: nat, rowLen: nat, y: nat, k: nat)
    requires 0 < stride && rowLen <= stride
    ensures Off(stride, y, 0) <= k < Off(stride, y, 0) + rowLen
            <==> RowAt(stride, k) == y && ColAt(stride, k) < rowLen
    ensures RowAt(stride, k) == y ==> k == Off(stride, y, ColAt(stride, k))
  {
    assert k == (k / stride) * stride + k % stride;
    if Off(stride, y, 0) <= k < Off(stride, y, 0) + rowLen {
      DivModUnique(k, stride, y, k - y * stride);
    }
  }

  /** Decoding a strided offset recovers its row and column. */
  lemma OffDecode(stride: nat, y: nat, j: nat)
    requires j < stride
    ensures RowAt(stride, Off(stride, y, j)) == y && ColAt(stride, Off(stride, y, j)) == j
  {
    DivModUnique(Off(stride, y, j), stride, y, j);
  }

  /** Every payload element of the first `rows` rows is inside the buffer. */
  lemma OffBound(rows: nat, stride: nat, rowLen: nat, n: nat, y: nat, j: nat)
    requires y < rows && j < rowLen && (rows - 1) * stride + rowLen <= n
    ensures Off(stride, y, j) < n && Off(stride, y, 0) + rowLen <= n
  {
    MulMonoLeft(y, rows - 1, stride);
  }
}
