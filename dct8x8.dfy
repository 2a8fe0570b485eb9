// The 8x8 block attenuation of src/cpu/dct8x8.cpp: the image is cut into
// 8x8 tiles; each channel of each tile is transformed, its coefficients
// other than DC are rounded to multiples of the steps of a quality table, it
// is transformed back and written over the tile. The cosine transforms are
// parameters of the model: `fwd` for forward_dct and `inv` for inverse_dct.
module Dct {
  import opened Arith
  import opened Grid
  import opened Images
  import Resample

  /** The 64 values of an 8x8 block, row by row (float block[64]). */
  type Block = b: seq<real> | |b| == 64 witness seq(64, _ => 0.0)

  // ---------------------------------------------------------------------
  // build_quality_table

  /** The Q50 table the quality scales: 64 positive steps. */
  predicate BaseTableOk(base: seq<int>) {
    |base| == 64 && forall i :: 0 <= i < 64 ==> base[i] > 0
  }

  /** std::max(1, std::min(quality, 100)). */
  function ClampQuality(quality: int): (q: int)
    ensures 1 <= q <= 100
    ensures 1 <= quality <= 100 ==> q == quality
    ensures quality < 1 ==> q == 1
    ensures quality > 100 ==> q == 100
  {
    var upper := if quality < 100 then quality else 100;
    if upper > 1 then upper else 1
  }

  /** The percentage the Q50 steps are scaled by at quality q < 100:
      5000 / q below 50, 200 - 2q from 50 on. */
  function QualityScale(q: int): (s: int)
    requires 1 <= q < 100
    ensures 2 <= s <= 5000
    ensures q < 50 ==> s > 100
    ensures q == 50 ==> s == 100
  {
    if q < 50 then 5000 / q else 200 - q * 2
  }

  /** std::max(1, std::min(value, 255)). */
  function ClampStep(v: int): (r: int)
    ensures 1 <= r <= 255
    ensures 1 <= v <= 255 ==> r == v
    ensures v < 1 ==> r == 1
    ensures v > 255 ==> r == 255
  {
    var upper := if v < 255 then v else 255;
    if upper > 1 then upper else 1
  }

  /** One scaled step: (base * scale + 50) / 100 clamped to [1, 255]. The
      dividend is positive, so C's truncating division is Dafny's. */
  function StepValue(base: int, scale: int): int
    requires base > 0 && scale > 0
  {
    ClampStep((base * scale + 50) / 100)
  }

  /** The quantisation steps for a quality: all 1 at quality 100 and above;
      otherwise the scaled Q50 steps, with the DC step forced to 1. */
  function QualityTable(base: seq<int>, quality: int): (t: seq<int>)
    requires BaseTableOk(base)
    ensures |t| == 64
    ensures forall i :: 0 <= i < 64 ==> 1 <= t[i] <= 255
    ensures t[0] == 1
    ensures quality >= 100 ==> forall i :: 0 <= i < 64 ==> t[i] == 1
  {
    var q := ClampQuality(quality);
    if q >= 100 then seq(64, _ => 1)
    else seq(64, i requires 0 <= i < 64 => if i == 0 then 1 else StepValue(base[i], QualityScale(q)))
  }

  /** At quality 50 the table is the Q50 table itself (clamped to [1, 255]),
      apart from the DC step. */
  lemma QualityTable50(base: seq<int>, i: nat)
    requires BaseTableOk(base) && 0 < i < 64
    ensures QualityTable(base, 50)[i] == ClampStep(base[i])
  {
    DivModUnique(base[i] * 100 + 50, 100, base[i], 50);
  }

  /** Integer division by a positive number does not shrink with the dividend. */
  lemma DivMonotone(a: int, b: int, d: int)
    requires 0 <= a <= b && d > 0
    ensures a / d <= b / d
  {
    var qa, qb := a / d, b / d;
    assert a == qa * d + a % d;
    assert b == qb * d + b % d;
    if qa > qb {
      assert qa * d == qb * d + (qa - qb) * d;
      MulAtLeast(qa - qb, d);
      assert false;
    }
  }

  /** Integer division does not grow with the divisor. */
  lemma DivAntitone(a: nat, d1: nat, d2: nat)
    requires 0 < d1 <= d2
    ensures a / d2 <= a / d1
  {
    var q := a / d2;
    assert q * d2 <= a by {
      assert a == q * d2 + a % d2;
    }
    MulMonoLeft(d1, d2, q);
    DivModUnique(q * d1, d1, q, 0);
    DivMonotone(q * d1, a, d1);
  }

  /** The scale never grows with the quality. */
  lemma QualityScaleAntitone(q1: int, q2: int)
    requires 1 <= q1 <= q2 < 100
    ensures QualityScale(q2) <= QualityScale(q1)
  {
    if q2 < 50 {
      DivAntitone(5000, q1, q2);
    }
  }

  /** A larger scale never gives a smaller step. */
  lemma StepMonotone(base: int, s1: int, s2: int)
    requires base > 0 && 0 < s1 <= s2
    ensures StepValue(base, s1) <= StepValue(base, s2)
  {
    assert base * s1 <= base * s2 by {
      assert base * s2 == base * s1 + base * (s2 - s1);
    }
    DivMonotone(base * s1 + 50, base * s2 + 50, 100);
  }

  /** A higher quality never gives a coarser step. */
  lemma QualityTableAntitone(base: seq<int>, q1: int, q2: int, i: nat)
    requires BaseTableOk(base) && q1 <= q2 && i < 64
    ensures QualityTable(base, q2)[i] <= QualityTable(base, q1)[i]
  {
    var c1, c2 := ClampQuality(q1), ClampQuality(q2);
    if c2 < 100 && i > 0 {
      QualityScaleAntitone(c1, c2);
      StepMonotone(base[i], QualityScale(c2), QualityScale(c1));
    }
  }

  /** build_quality_table: the 64 steps, computed in a loop, then the DC
      step overwritten with 1. */
  method BuildQualityTable(base: seq<int>, quality: int) returns (table: seq<int>)
    requires BaseTableOk(base)
    ensures table == QualityTable(base, quality)
  {
    var q := ClampQuality(quality);
    if q >= 100 {
      return seq(64, _ => 1);
    }
    var scaled := q;
    if q < 50 {
      scaled := 5000 / q;
    } else {
      scaled := 200 - q * 2;
    }
    var steps := new int[64];
    for i := 0 to 64
      invariant forall j :: 0 <= j < i ==> steps[j] == StepValue(base[j], scaled)
    {
      var value := (base[i] * scaled + 50) / 100;
      value := ClampStep(value);
      steps[i] := value;
    }
    steps[0] := 1;
    table := steps[..];
  }

  // ---------------------------------------------------------------------
  // Tiling

  /** clamp_index: the last valid index for a value at or past the limit. */
  function ClampIndex(value: nat, limit: nat): (r: nat)
    requires limit > 0
    ensures r < limit
    ensures value < limit ==> r == value
    ensures value >= limit ==> r == limit - 1
  {
    if value >= limit then limit - 1 else value
  }

  /** Tiles along a side of n samples: (n + 7) / 8, the fewest 8-sample
      tiles that cover the side. */
  function TilesAlong(n: nat): (r: nat)
    ensures r * 8 >= n
    ensures n > 0 ==> (r - 1) * 8 < n
    ensures n == 0 ==> r == 0
    ensures n > 0 ==> r > 0
  {
    (n + 7) / 8
  }

  /** Tile index t of a grid tilesX wide is tile (t / tilesX, t % tilesX),
      and every tile of the tilesY x tilesX grid has exactly one index. */
  lemma TileBijection(tilesX: nat, tilesY: nat, t: nat, ty: nat, tx: nat)
    requires tilesX > 0
    ensures t < tilesX * tilesY ==> t / tilesX < tilesY && t % tilesX < tilesX
    ensures t < tilesX * tilesY ==> (t / tilesX) * tilesX + t % tilesX == t
    ensures ty < tilesY && tx < tilesX ==>
              ty * tilesX + tx < tilesX * tilesY &&
              (ty * tilesX + tx) / tilesX == ty && (ty * tilesX + tx) % tilesX == tx
  {
    if t < tilesX * tilesY && t / tilesX >= tilesY {
      assert t == (t / tilesX) * tilesX + t % tilesX;
      MulMonoLeft(tilesY, t / tilesX, tilesX);
      assert false;
    }
    if ty < tilesY && tx < tilesX {
      DivModUnique(ty * tilesX + tx, tilesX, ty, tx);
      MulMonoLeft(ty + 1, tilesY, tilesX);
      assert tilesY * tilesX == tilesX * tilesY;
    }
  }

  /** Every pixel of a w x h image lies in tile (y / 8, x / 8) of the
      grid, at slot (y % 8) * 8 + x % 8 of the block. */
  lemma PixelTile(w: nat, h: nat, y: nat, x: nat)
    requires y < h && x < w
    ensures y / 8 < TilesAlong(h) && x / 8 < TilesAlong(w)
    ensures (y / 8) * TilesAlong(w) + x / 8 < TilesAlong(w) * TilesAlong(h)
    ensures 8 * (y / 8) <= y < 8 * (y / 8) + 8 && 8 * (x / 8) <= x < 8 * (x / 8) + 8
    ensures (y % 8) * 8 + x % 8 < 64
  {
    TileBijection(TilesAlong(w), TilesAlong(h), 0, y / 8, x / 8);
  }

  // ---------------------------------------------------------------------
  // One block

  /** The block of channel c of the tile with top-left corner (x0, y0):
      slot yy * 8 + xx holds the sample at that offset, with rows and
      columns past the image edge replaced by the last one. */
  function ReadBlock(src: seq<real>, w: nat, h: nat, ch: nat, x0: nat, y0: nat, c: nat): Block
    requires w > 0 && h > 0 && c < ch && |src| == h * w * ch
  {
    seq(64, i requires 0 <= i < 64 =>
      IdxBound(h, w, ch, ClampIndex(y0 + i / 8, h), ClampIndex(x0 + i % 8, w), c);
      src[Idx(w, ch, ClampIndex(y0 + i / 8, h), ClampIndex(x0 + i % 8, w), c)])
  }

  /** A coefficient rounded to the nearest multiple of its step; halves go
      to the even multiple (std::nearbyint). */
  function Requantize(v: real, step: int): real
    requires step > 0
  {
    RoundHalfEven(v / step as real) as real * step as real
  }

  /** The quantisation loop: every coefficient but DC rounded to its step. */
  function QuantizeCoefficients(b: Block, table: seq<int>): Block
    requires |table| == 64 && forall i :: 0 <= i < 64 ==> table[i] > 0
  {
    seq(64, i requires 0 <= i < 64 => if i == 0 then b[0] else Requantize(b[i], table[i]))
  }

  /** What happens to a block: forward transform, quantisation below
      quality 100, inverse transform. */
  function ProcessBlock(b: Block, fwd: Block -> Block, inv: Block -> Block, table: seq<int>, quality: int): Block
    requires |table| == 64 && forall i :: 0 <= i < 64 ==> table[i] > 0
  {
    var coefficients := fwd(b);
    inv(if quality < 100 then QuantizeCoefficients(coefficients, table) else coefficients)
  }

  /** A real at most half a unit, scaled by s > 0, is at most half of s. */
  lemma HalfScaledAbove(e: real, s: real)
    requires e <= 0.5 && s > 0.0
    ensures e * s <= 0.5 * s
  {
    assert (0.5 - e) * s >= 0.0;
  }

  /** Two reals within half a unit of each other, scaled by s > 0, stay
      within half of s of each other. */
  lemma HalfScaled(n: real, q: real, s: real)
    requires -0.5 <= n - q <= 0.5 && s > 0.0
    ensures -s / 2.0 <= n * s - q * s <= s / 2.0
  {
    var e := n - q;
    assert n * s - q * s == e * s;
    HalfScaledAbove(e, s);
    HalfScaledAbove(-e, s);
  }

  /** Rounding moves a coefficient by at most half its step. */
  lemma RequantizeError(v: real, step: int)
    requires step > 0
    ensures -(step as real) / 2.0 <= Requantize(v, step) - v
    ensures Requantize(v, step) - v <= (step as real) / 2.0
  {
    var s := step as real;
    var q := v / s;
    var n := RoundHalfEven(q) as real;
    assert v == q * s;
    assert Requantize(v, step) == n * s;
    HalfScaled(n, q, s);
    assert n * s - q * s <= s / 2.0;
    assert Requantize(v, step) - v == n * s - q * s;
    assert Requantize(v, step) - v <= s / 2.0;
    assert s / 2.0 == (step as real) / 2.0;
  }

  /** A multiple of the step is left as it is, so rounding twice is
      rounding once. */
  lemma RequantizeIdempotent(v: real, step: int)
    requires step > 0
    ensures Requantize(Requantize(v, step), step) == Requantize(v, step)
  {
    var s := step as real;
    var n := RoundHalfEven(v / s);
    assert Requantize(v, step) / s == n as real;
    assert RoundHalfEven(n as real) == n;
  }

  /** The DC coefficient passes through quantisation; the others move by at
      most half their step; quantising again changes nothing. */
  lemma QuantizeCoefficientsFacts(b: Block, table: seq<int>)
    requires |table| == 64 && forall i :: 0 <= i < 64 ==> table[i] > 0
    ensures QuantizeCoefficients(b, table)[0] == b[0]
    ensures forall i :: 0 < i < 64 ==>
              -(table[i] as real) / 2.0 <= QuantizeCoefficients(b, table)[i] - b[i] <= table[i] as real / 2.0
    ensures QuantizeCoefficients(QuantizeCoefficients(b, table), table) == QuantizeCoefficients(b, table)
  {
    var q := QuantizeCoefficients(b, table);
    forall i | 0 < i < 64
      ensures -(table[i] as real) / 2.0 <= q[i] - b[i] <= table[i] as real / 2.0
      ensures Requantize(q[i], table[i]) == q[i]
    {
      RequantizeError(b[i], table[i]);
      RequantizeIdempotent(b[i], table[i]);
    }
    assert QuantizeCoefficients(q, table) == q;
  }

  /** From quality 100 on a block is only transformed there and back. */
  lemma ProcessBlockLossless(b: Block, fwd: Block -> Block, inv: Block -> Block, table: seq<int>, quality: int)
    requires |table| == 64 && forall i :: 0 <= i < 64 ==> table[i] > 0
    requires quality >= 100
    ensures ProcessBlock(b, fwd, inv, table, quality) == inv(fwd(b))
  {
  }

  // ---------------------------------------------------------------------
  // dct8x8_hf_attenuate as a value

  predicate TableOk(table: seq<int>) {
    |table| == 64 && forall i :: 0 <= i < 64 ==> table[i] > 0
  }

  /** Output element k of a non-degenerate image: slot (y % 8) * 8 + x % 8
      of the processed block of channel c of tile (y / 8, x / 8), where
      (y, x, c) is the coordinate of k. */
  function AttenuatedAt(src: seq<real>, w: nat, h: nat, ch: nat, table: seq<int>, quality: int,
                        fwd: Block -> Block, inv: Block -> Block, k: nat): real
    requires w > 0 && h > 0 && ch > 0 && |src| == h * w * ch && k < |src| && TableOk(table)
  {
    var y, x, c := RowOf(w, ch, k), ColOf(w, ch, k), ChanOf(w, ch, k);
    ProcessBlock(ReadBlock(src, w, h, ch, 8 * (x / 8), 8 * (y / 8), c), fwd, inv, table, quality)[(y % 8) * 8 + x % 8]
  }

  /** dct8x8_hf_attenuate: an image of zero size or without an inferable
      channel count is returned as it is; otherwise every element is
      replaced by its tile's processed block. The size never changes. */
  function Attenuated(input: Image, quality: int, base: seq<int>, fwd: Block -> Block, inv: Block -> Block): (out: Image)
    requires BaseTableOk(base)
    ensures out.width == input.width && out.height == input.height && |out.pixels| == |input.pixels|
    ensures input.width == 0 || input.height == 0 || Resample.ComputeChannels(input) == 0 ==> out == input
  {
    var w, h := input.width, input.height;
    var ch := Resample.ComputeChannels(input);
    if w == 0 || h == 0 || ch == 0 then input
    else
      var table := QualityTable(base, quality);
      assert |input.pixels| == h * w * ch;
      Image(w, h, seq(|input.pixels|, k requires 0 <= k < |input.pixels| =>
        AttenuatedAt(input.pixels, w, h, ch, table, quality, fwd, inv, k)))
  }

  /** Element (y, x, c) of the output is slot (y % 8) * 8 + x % 8 of the
      processed block of channel c of tile (y / 8, x / 8). */
  lemma AttenuatedPixel(input: Image, quality: int, base: seq<int>, fwd: Block -> Block, inv: Block -> Block,
                        y: nat, x: nat, c: nat)
    requires BaseTableOk(base) && Resample.ComputeChannels(input) > 0
    requires y < input.height && x < input.width && c < Resample.ComputeChannels(input)
    ensures var w, h, ch := input.width, input.height, Resample.ComputeChannels(input);
            Idx(w, ch, y, x, c) < |input.pixels| &&
            Attenuated(input, quality, base, fwd, inv).pixels[Idx(w, ch, y, x, c)] ==
              ProcessBlock(ReadBlock(input.pixels, w, h, ch, 8 * (x / 8), 8 * (y / 8), c), fwd, inv,
                           QualityTable(base, quality), quality)[(y % 8) * 8 + x % 8]
  {
    var w, h, ch := input.width, input.height, Resample.ComputeChannels(input);
        IdxBound(h, w, ch, y, x, c);
    DecodeIdx(h, w, ch, y, x, c);
  }

  /** A pixel's own sample sits in its slot of its tile's block: the clamp
      only touches slots past the image edge. */
  lemma ReadBlockOwnSample(src: seq<real>, w: nat, h: nat, ch: nat, y: nat, x: nat, c: nat)
    requires w > 0 && h > 0 && c < ch && |src| == h * w * ch && y < h && x < w
    ensures Idx(w, ch, y, x, c) < |src|
    ensures ReadBlock(src, w, h, ch, 8 * (x / 8), 8 * (y / 8), c)[(y % 8) * 8 + x % 8] == src[Idx(w, ch, y, x, c)]
  {
    IdxBound(h, w, ch, y, x, c);
    var i := (y % 8) * 8 + x % 8;
    assert i / 8 == y % 8 && i % 8 == x % 8 by {
      DivModUnique(i, 8, y % 8, x % 8);
    }
  }

  /** Every sample a block reads is inside the image. */
  lemma ReadBlockInBounds(w: nat, h: nat, ch: nat, x0: nat, y0: nat, c: nat, i: nat)
    requires w > 0 && h > 0 && c < ch && i < 64
    ensures Idx(w, ch, ClampIndex(y0 + i / 8, h), ClampIndex(x0 + i % 8, w), c) < h * w * ch
  {
    IdxBound(h, w, ch, ClampIndex(y0 + i / 8, h), ClampIndex(x0 + i % 8, w), c);
  }

  /** From quality 100 on, transforms that invert each other leave the
      image as it was. */
  lemma LosslessAtFullQuality(input: Image, quality: int, base: seq<int>, fwd: Block -> Block, inv: Block -> Block)
    requires BaseTableOk(base) && quality >= 100
    requires forall b: Block :: inv(fwd(b)) == b
    ensures Attenuated(input, quality, base, fwd, inv) == input
  {
    var w, h := input.width, input.height;
    var ch := Resample.ComputeChannels(input);
    if w > 0 && h > 0 && ch > 0 {
      var out := Attenuated(input, quality, base, fwd, inv);
            var table := QualityTable(base, quality);
      forall k | 0 <= k < |input.pixels| ensures out.pixels[k] == input.pixels[k] {
        EncodeDecode(h, w, ch, k);
        var y, x, c := RowOf(w, ch, k), ColOf(w, ch, k), ChanOf(w, ch, k);
        var b := ReadBlock(input.pixels, w, h, ch, 8 * (x / 8), 8 * (y / 8), c);
        ProcessBlockLossless(b, fwd, inv, table, quality);
        ReadBlockOwnSample(input.pixels, w, h, ch, y, x, c);
      }
    }
  }

  // ---------------------------------------------------------------------
  // The imperative version

  /** Element k of the image lies in the 8x8 tile with corner (x0, y0). */
  predicate InTile(w: nat, ch: nat, x0: nat, y0: nat, k: nat)
    requires w > 0 && ch > 0
  {
    y0 <= RowOf(w, ch, k) < y0 + 8 && x0 <= ColOf(w, ch, k) < x0 + 8
  }

  /** The slot of element k in the block of its tile. */
  function SlotOf(w: nat, ch: nat, x0: nat, y0: nat, k: nat): (i: nat)
    requires w > 0 && ch > 0 && InTile(w, ch, x0, y0, k)
    ensures i < 64
  {
    (RowOf(w, ch, k) - y0) * 8 + (ColOf(w, ch, k) - x0)
  }

  /** The block-filling loops: slot yy * 8 + xx receives the clamped sample
      at (y0 + yy, x0 + xx). */
  method LoadBlock(src: seq<real>, w: nat, h: nat, ch: nat, x0: nat, y0: nat, c: nat, block: array<real>)
    requires w > 0 && h > 0 && c < ch && |src| == h * w * ch && block.Length == 64
    modifies block
    ensures block[..] == ReadBlock(src, w, h, ch, x0, y0, c)
  {
    for yy := 0 to 8
      invariant forall i :: 0 <= i < yy * 8 ==> block[i] == ReadBlock(src, w, h, ch, x0, y0, c)[i]
    {
      var srcY := ClampIndex(y0 + yy, h);
      for xx := 0 to 8
        invariant forall i :: 0 <= i < yy * 8 + xx ==> block[i] == ReadBlock(src, w, h, ch, x0, y0, c)[i]
      {
        var srcX := ClampIndex(x0 + xx, w);
        IdxBound(h, w, ch, srcY, srcX, c);
        var idx := Idx(w, ch, srcY, srcX, c);
        assert (yy * 8 + xx) / 8 == yy && (yy * 8 + xx) % 8 == xx by {
          DivModUnique(yy * 8 + xx, 8, yy, xx);
        }
        block[yy * 8 + xx] := src[idx];
      }
    }
  }

  /** forward_dct or inverse_dct applied to the block in place. */
  method Transform(block: array<real>, f: Block -> Block)
    requires block.Length == 64
    modifies block
    ensures block[..] == f(old(block[..]))
  {
    var out := f(block[..]);
    forall i | 0 <= i < 64 {
      block[i] := out[i];
    }
  }

  /** The quantisation loop, in place: coefficient 0 is skipped, every
      other one rounded to its step. */
  method QuantizeBlock(block: array<real>, table: seq<int>)
    requires block.Length == 64 && TableOk(table)
    modifies block
    ensures block[..] == QuantizeCoefficients(old(block[..]), table)
  {
    for i := 0 to 64
      invariant forall j :: 0 <= j < 64 ==>
        block[j] == if 0 < j < i then Requantize(old(block[j]), table[j]) else old(block[j])
    {
      if i == 0 {
        continue;
      }
      var q := table[i];
      var scaled := block[i] / q as real;
      var quantized := RoundHalfEven(scaled) as real * q as real;
      block[i] := quantized;
    }
  }

  /** One row of the write-back loop: columns x0 + xx, while inside the
      image, of row y0 + yy receive slots yy * 8 + xx. */
  method StoreRow(block: array<real>, w: nat, h: nat, ch: nat, x0: nat, y0: nat, yy: nat, c: nat, dst: array<real>)
    requires w > 0 && h > 0 && c < ch && dst.Length == h * w * ch && block.Length == 64
    requires yy < 8 && y0 + yy < h && block != dst
    modifies dst
    ensures forall k :: 0 <= k < dst.Length ==>
      dst[k] == if InTile(w, ch, x0, y0, k) && ChanOf(w, ch, k) == c && RowOf(w, ch, k) == y0 + yy
                then block[SlotOf(w, ch, x0, y0, k)] else old(dst[k])
  {
    for xx := 0 to 8
      invariant forall k :: 0 <= k < dst.Length ==>
        dst[k] == if InTile(w, ch, x0, y0, k) && ChanOf(w, ch, k) == c && RowOf(w, ch, k) == y0 + yy &&
                     ColOf(w, ch, k) < x0 + xx
                  then block[SlotOf(w, ch, x0, y0, k)] else old(dst[k])
    {
      var dstX := x0 + xx;
      if dstX >= w {
        break;
      }
      IdxBound(h, w, ch, y0 + yy, dstX, c);
      DecodeIdx(h, w, ch, y0 + yy, dstX, c);
      var idx := Idx(w, ch, y0 + yy, dstX, c);
      ghost var before := dst[..];
      dst[idx] := block[yy * 8 + xx];
      forall k | 0 <= k < dst.Length
        ensures dst[k] == if InTile(w, ch, x0, y0, k) && ChanOf(w, ch, k) == c && RowOf(w, ch, k) == y0 + yy &&
                             ColOf(w, ch, k) < x0 + xx + 1
                          then block[SlotOf(w, ch, x0, y0, k)] else old(dst[k])
      {
        if k != idx {
          EncodeDecode(h, w, ch, k);
          assert dst[k] == before[k];
        }
      }
    }
  }

  /** The write-back loops of one block: rows y0 + yy, while inside the
      image, receive their row of the block. */
  method StoreBlock(block: array<real>, w: nat, h: nat, ch: nat, x0: nat, y0: nat, c: nat, dst: array<real>)
    requires w > 0 && h > 0 && c < ch && dst.Length == h * w * ch && block.Length == 64 && block != dst
    modifies dst
    ensures forall k :: 0 <= k < dst.Length ==>
      dst[k] == if InTile(w, ch, x0, y0, k) && ChanOf(w, ch, k) == c
                then block[SlotOf(w, ch, x0, y0, k)] else old(dst[k])
  {
    for yy := 0 to 8
      invariant forall k :: 0 <= k < dst.Length ==>
        dst[k] == if InTile(w, ch, x0, y0, k) && ChanOf(w, ch, k) == c && RowOf(w, ch, k) < y0 + yy
                  then block[SlotOf(w, ch, x0, y0, k)] else old(dst[k])
    {
      var dstY := y0 + yy;
      if dstY >= h {
        forall k | 0 <= k < dst.Length ensures RowOf(w, ch, k) < h {
          EncodeDecode(h, w, ch, k);
        }
        break;
      }
      ghost var before := dst[..];
      StoreRow(block, w, h, ch, x0, y0, yy, c, dst);
      forall k | 0 <= k < dst.Length
        ensures dst[k] == if InTile(w, ch, x0, y0, k) && ChanOf(w, ch, k) == c && RowOf(w, ch, k) < y0 + yy + 1
                          then block[SlotOf(w, ch, x0, y0, k)] else old(dst[k])
      {
        assert before[k] == if InTile(w, ch, x0, y0, k) && ChanOf(w, ch, k) == c && RowOf(w, ch, k) < y0 + yy
                            then block[SlotOf(w, ch, x0, y0, k)] else old(dst[k]);
      }
    }
  }

  /** The processed value of element k of the tile with corner (x0, y0). */
  function TileValue(src: seq<real>, w: nat, h: nat, ch: nat, table: seq<int>, quality: int,
                     fwd: Block -> Block, inv: Block -> Block, x0: nat, y0: nat, k: nat): real
    requires w > 0 && h > 0 && ch > 0 && |src| == h * w * ch && k < |src| && TableOk(table)
    requires InTile(w, ch, x0, y0, k)
  {
    EncodeDecode(h, w, ch, k);
    ProcessBlock(ReadBlock(src, w, h, ch, x0, y0, ChanOf(w, ch, k)), fwd, inv, table, quality)[SlotOf(w, ch, x0, y0, k)]
  }

  /** The body of the lambda given to parallel_for, for one tile: every
      channel's block is loaded, transformed, quantised below quality 100,
      transformed back and written over the tile. */
  method ProcessTile(src: seq<real>, w: nat, h: nat, ch: nat, table: seq<int>, quality: int,
                     fwd: Block -> Block, inv: Block -> Block, x0: nat, y0: nat, dst: array<real>)
    requires w > 0 && h > 0 && ch > 0 && |src| == h * w * ch && dst.Length == |src| && TableOk(table)
    modifies dst
    ensures forall k :: 0 <= k < dst.Length ==>
      dst[k] == if InTile(w, ch, x0, y0, k) then TileValue(src, w, h, ch, table, quality, fwd, inv, x0, y0, k)
                else old(dst[k])
  {
    for c := 0 to ch
      invariant forall k :: 0 <= k < dst.Length ==>
        dst[k] == if InTile(w, ch, x0, y0, k) && ChanOf(w, ch, k) < c
                  then TileValue(src, w, h, ch, table, quality, fwd, inv, x0, y0, k) else old(dst[k])
    {
      var block := new real[64];
      LoadBlock(src, w, h, ch, x0, y0, c, block);
      Transform(block, fwd);
      if quality < 100 {
        QuantizeBlock(block, table);
      }
      Transform(block, inv);
      assert block[..] == ProcessBlock(ReadBlock(src, w, h, ch, x0, y0, c), fwd, inv, table, quality);
      ghost var before := dst[..];
      StoreBlock(block, w, h, ch, x0, y0, c, dst);
      forall k | 0 <= k < dst.Length
        ensures dst[k] == if InTile(w, ch, x0, y0, k) && ChanOf(w, ch, k) < c + 1
                          then TileValue(src, w, h, ch, table, quality, fwd, inv, x0, y0, k) else old(dst[k])
      {
        assert before[k] == if InTile(w, ch, x0, y0, k) && ChanOf(w, ch, k) < c
                            then TileValue(src, w, h, ch, table, quality, fwd, inv, x0, y0, k) else old(dst[k]);
      }
    }
  }

  /** The index of the tile element k lies in, tiles numbered row by row. */
  function TileOf(w: nat, ch: nat, tilesX: nat, k: nat): nat
    requires w > 0 && ch > 0
  {
    (RowOf(w, ch, k) / 8) * tilesX + ColOf(w, ch, k) / 8
  }

  /** The corner of tile t in an image w samples wide: tile_x * 8 and
      tile_y * 8 for tile_x = t % tiles_x, tile_y = t / tiles_x. */
  function TileX0(w: nat, t: nat): nat
    requires w > 0
  {
    (t % TilesAlong(w)) * 8
  }

  function TileY0(w: nat, t: nat): nat
    requires w > 0
  {
    (t / TilesAlong(w)) * 8
  }

  /** Sample n lies in the 8-sample span starting at 8 * i exactly when
      n / 8 == i. */
  lemma SpanOf(n: nat, i: nat)
    ensures 8 * i <= n < 8 * i + 8 <==> n / 8 == i
  {
    if 8 * i <= n < 8 * i + 8 {
      DivModUnique(n, 8, i, n - 8 * i);
    }
  }

  /** Tile t of a grid tilesX wide is (ty, tx) exactly when
      t == ty * tilesX + tx. */
  lemma TileIndexIff(tilesX: nat, t: nat, ty: nat, tx: nat)
    requires tilesX > 0 && tx < tilesX
    ensures t / tilesX == ty && t % tilesX == tx <==> ty * tilesX + tx == t
  {
    if ty * tilesX + tx == t {
      DivModUnique(t, tilesX, ty, tx);
    }
  }

  /** Element k lies in tile t exactly when t is its tile's index, and
      every element's tile index is below the tile count. */
  lemma TileMembership(w: nat, h: nat, ch: nat, t: nat, k: nat)
    requires w > 0 && h > 0 && ch > 0 && k < h * w * ch
    ensures TileOf(w, ch, TilesAlong(w), k) < TilesAlong(w) * TilesAlong(h)
    ensures InTile(w, ch, TileX0(w, t), TileY0(w, t), k) <==> TileOf(w, ch, TilesAlong(w), k) == t
    ensures InTile(w, ch, TileX0(w, t), TileY0(w, t), k) ==>
              TileX0(w, t) == 8 * (ColOf(w, ch, k) / 8) && TileY0(w, t) == 8 * (RowOf(w, ch, k) / 8)
  {
    var tilesX := TilesAlong(w);
    EncodeDecode(h, w, ch, k);
    var y, x := RowOf(w, ch, k), ColOf(w, ch, k);
    PixelTile(w, h, y, x);
    SpanOf(y, t / tilesX);
    SpanOf(x, t % tilesX);
    TileIndexIff(tilesX, t, y / 8, x / 8);
  }

  /** Inside tile (x / 8, y / 8) the value ProcessTile writes is the one
      the model gives. */
  lemma TileValueAt(src: seq<real>, w: nat, h: nat, ch: nat, table: seq<int>, quality: int,
                    fwd: Block -> Block, inv: Block -> Block, x0: nat, y0: nat, k: nat)
    requires w > 0 && h > 0 && ch > 0 && |src| == h * w * ch && k < |src| && TableOk(table)
    requires x0 == 8 * (ColOf(w, ch, k) / 8) && y0 == 8 * (RowOf(w, ch, k) / 8)
    ensures InTile(w, ch, x0, y0, k)
    ensures TileValue(src, w, h, ch, table, quality, fwd, inv, x0, y0, k) ==
            AttenuatedAt(src, w, h, ch, table, quality, fwd, inv, k)
  {
    var y, x := RowOf(w, ch, k), ColOf(w, ch, k);
    assert SlotOf(w, ch, x0, y0, k) == (y % 8) * 8 + x % 8;
  }

  /** The elements of tiles 0 .. t-1 hold their processed values, the
      others their input values. */
  ghost predicate TilesDone(d: seq<real>, src: seq<real>, w: nat, h: nat, ch: nat, table: seq<int>, quality: int,
                            fwd: Block -> Block, inv: Block -> Block, t: nat)
    requires w > 0 && h > 0 && ch > 0 && |src| == h * w * ch && TableOk(table)
  {
    |d| == |src| &&
    forall k :: 0 <= k < |d| ==>
      d[k] == if TileOf(w, ch, TilesAlong(w), k) < t then AttenuatedAt(src, w, h, ch, table, quality, fwd, inv, k) else src[k]
  }

  /** Processing tile t after tiles 0 .. t-1 leaves tiles 0 .. t done. */
  lemma TileStep(before: seq<real>, after: seq<real>, src: seq<real>, w: nat, h: nat, ch: nat, table: seq<int>,
                 quality: int, fwd: Block -> Block, inv: Block -> Block, t: nat)
    requires w > 0 && h > 0 && ch > 0 && |src| == h * w * ch && TableOk(table)
    requires TilesDone(before, src, w, h, ch, table, quality, fwd, inv, t)
    requires |after| == |src|
    requires forall k :: 0 <= k < |after| ==>
      after[k] == if InTile(w, ch, TileX0(w, t), TileY0(w, t), k)
                  then TileValue(src, w, h, ch, table, quality, fwd, inv, TileX0(w, t), TileY0(w, t), k)
                  else before[k]
    ensures TilesDone(after, src, w, h, ch, table, quality, fwd, inv, t + 1)
  {
    var x0, y0 := TileX0(w, t), TileY0(w, t);
    forall k | 0 <= k < |after|
      ensures after[k] == if TileOf(w, ch, TilesAlong(w), k) < t + 1
                          then AttenuatedAt(src, w, h, ch, table, quality, fwd, inv, k) else src[k]
    {
      TileMembership(w, h, ch, t, k);
      if TileOf(w, ch, TilesAlong(w), k) == t {
        TileValueAt(src, w, h, ch, table, quality, fwd, inv, x0, y0, k);
      }
    }
  }

  /** Once every tile is done, every element holds its processed value. */
  lemma TilesAllDone(d: seq<real>, src: seq<real>, w: nat, h: nat, ch: nat, table: seq<int>, quality: int,
                     fwd: Block -> Block, inv: Block -> Block)
    requires w > 0 && h > 0 && ch > 0 && |src| == h * w * ch && TableOk(table)
    requires TilesDone(d, src, w, h, ch, table, quality, fwd, inv, TilesAlong(w) * TilesAlong(h))
    ensures |d| == |src|
    ensures forall k :: 0 <= k < |d| ==> d[k] == AttenuatedAt(src, w, h, ch, table, quality, fwd, inv, k)
  {
    forall k | 0 <= k < |d| ensures d[k] == AttenuatedAt(src, w, h, ch, table, quality, fwd, inv, k) {
      TileMembership(w, h, ch, 0, k);
    }
  }

  /** The parallel_for over the tiles, run one tile after the other: tile
      t is (t / tilesX, t % tilesX) of a grid of (w + 7) / 8 by (h + 7) / 8
      tiles. The output buffer starts as a copy of the input. */
  method AttenuateTiles(src: seq<real>, w: nat, h: nat, ch: nat, table: seq<int>, quality: int,
                        fwd: Block -> Block, inv: Block -> Block, dst: array<real>)
    requires w > 0 && h > 0 && ch > 0 && |src| == h * w * ch && TableOk(table)
    requires dst[..] == src
    modifies dst
    ensures forall k :: 0 <= k < dst.Length ==> dst[k] == AttenuatedAt(src, w, h, ch, table, quality, fwd, inv, k)
  {
    var tilesX := (w + 7) / 8;
    var tilesY := (h + 7) / 8;
    var tileCount := tilesX * tilesY;
    assert tilesX == TilesAlong(w) && tilesY == TilesAlong(h);
    for t := 0 to tileCount
      invariant TilesDone(dst[..], src, w, h, ch, table, quality, fwd, inv, t)
    {
      var tileY := t / tilesX;
      var tileX := t % tilesX;
      var baseX := tileX * 8;
      var baseY := tileY * 8;
      assert baseX == TileX0(w, t) && baseY == TileY0(w, t);
      ghost var before := dst[..];
      ProcessTile(src, w, h, ch, table, quality, fwd, inv, baseX, baseY, dst);
      TileStep(before, dst[..], src, w, h, ch, table, quality, fwd, inv, t);
    }
    TilesAllDone(dst[..], src, w, h, ch, table, quality, fwd, inv);
  }

  /** dct8x8_hf_attenuate: the output starts as a copy of the input; a
      zero-size image or one whose channel count cannot be inferred is
      returned as it is; otherwise every tile is processed, one after the
      other. */
  method HfAttenuate(input: Image, quality: int, base: seq<int>, fwd: Block -> Block, inv: Block -> Block)
    returns (output: Image)
    requires BaseTableOk(base)
    ensures output == Attenuated(input, quality, base, fwd, inv)
  {
    output := input;
    var w, h := input.width, input.height;
    if w == 0 || h == 0 {
      return;
    }
    var ch := Resample.ComputeChannels(input);
    if ch == 0 {
      return;
    }
    var table := BuildQualityTable(base, quality);
    var src := input.pixels;
    var dst := new real[|src|](k requires 0 <= k < |src| => src[k]);
    AttenuateTiles(src, w, h, ch, table, quality, fwd, inv, dst);
    output := Image(w, h, dst[..]);
  }
}
