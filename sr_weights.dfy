// The fixed filter bank of the SR-lite upscaler (include/pixmask/sr_weights.h).
// A layer's weights are one flat table of out * 3 * 3 * in entries, indexed
// by (output channel, kernel row, kernel column, input channel). Layer 1
// turns each of the three colour channels into five features (the centre
// pixel and its four neighbours) plus one shared luminance feature; layer 2
// passes its sixteen features through; layer 3 mixes them into the four
// sub-pixels of each colour channel.
module SrWeights {
  import opened Arith
  import opened Grid

  const InputChannels: nat := 3
  const UpscaleFactor: nat := 2
  const Conv1OutChannels: nat := 16
  const Conv2OutChannels: nat := 16
  const Conv3OutChannels: nat := InputChannels * UpscaleFactor * UpscaleFactor
  const KernelSize: nat := 3

  /** Number of weights of a 3 x 3 layer. */
  function ConvWeightCount(outChannels: nat, inChannels: nat): nat {
    outChannels * KernelSize * KernelSize * inChannels
  }

  /** The three layers have 432, 2304 and 1728 weights; layer 3 has one
      output per colour channel and sub-pixel. */
  lemma LayerSizes()
    ensures Conv3OutChannels == 12
    ensures ConvWeightCount(Conv1OutChannels, InputChannels) == 432
    ensures ConvWeightCount(Conv2OutChannels, Conv1OutChannels) == 2304
    ensures ConvWeightCount(Conv3OutChannels, Conv2OutChannels) == 1728
  {
  }

  /** Position of weight (oc, ky, kx, ic) in a layer with inChannels inputs. */
  function ConvIndex(outChannel: nat, ky: nat, kx: nat, inChannel: nat, inChannels: nat): nat {
    ((outChannel * KernelSize + ky) * KernelSize + kx) * inChannels + inChannel
  }

  /** The four coordinates of a flat weight position. */
  function OutChannelOf(k: nat, inChannels: nat): nat requires inChannels > 0 { k / inChannels / 3 / 3 }
  function KyOf(k: nat, inChannels: nat): nat requires inChannels > 0 { k / inChannels / 3 % 3 }
  function KxOf(k: nat, inChannels: nat): nat requires inChannels > 0 { k / inChannels % 3 }
  function InChannelOf(k: nat, inChannels: nat): nat requires inChannels > 0 { k % inChannels }

  /** In-range coordinates give a position inside the layer. */
  lemma ConvIndexBound(oc: nat, ky: nat, kx: nat, ic: nat, outChannels: nat, inChannels: nat)
    requires oc < outChannels && ky < 3 && kx < 3 && ic < inChannels
    ensures ConvIndex(oc, ky, kx, ic, inChannels) < ConvWeightCount(outChannels, inChannels)
  {
    var t := (oc * 3 + ky) * 3 + kx;
    assert t < outChannels * 3 * 3;
    assert t + 1 <= outChannels * 3 * 3;
    MulMonoLeft(t + 1, outChannels * 3 * 3, inChannels);
    assert ConvIndex(oc, ky, kx, ic, inChannels) < (t + 1) * inChannels;
  }

  /** A position's coordinates are the ones it was made from. */
  lemma ConvIndexDecode(oc: nat, ky: nat, kx: nat, ic: nat, inChannels: nat)
    requires ky < 3 && kx < 3 && ic < inChannels
    ensures OutChannelOf(ConvIndex(oc, ky, kx, ic, inChannels), inChannels) == oc
    ensures KyOf(ConvIndex(oc, ky, kx, ic, inChannels), inChannels) == ky
    ensures KxOf(ConvIndex(oc, ky, kx, ic, inChannels), inChannels) == kx
    ensures InChannelOf(ConvIndex(oc, ky, kx, ic, inChannels), inChannels) == ic
  {
    var k := ConvIndex(oc, ky, kx, ic, inChannels);
    var t := (oc * 3 + ky) * 3 + kx;
    DivModUnique(k, inChannels, t, ic);
    DivModUnique(t, 3, oc * 3 + ky, kx);
    DivModUnique(oc * 3 + ky, 3, oc, ky);
  }

  /** conv_index is injective on in-range coordinates. */
  lemma ConvIndexInjective(oc: nat, ky: nat, kx: nat, ic: nat, oc2: nat, ky2: nat, kx2: nat, ic2: nat, inChannels: nat)
    requires ky < 3 && kx < 3 && ic < inChannels && ky2 < 3 && kx2 < 3 && ic2 < inChannels
    requires ConvIndex(oc, ky, kx, ic, inChannels) == ConvIndex(oc2, ky2, kx2, ic2, inChannels)
    ensures oc == oc2 && ky == ky2 && kx == kx2 && ic == ic2
  {
    ConvIndexDecode(oc, ky, kx, ic, inChannels);
    ConvIndexDecode(oc2, ky2, kx2, ic2, inChannels);
  }

  /** Every position of a layer is the position of in-range coordinates. */
  lemma ConvIndexOnto(k: nat, outChannels: nat, inChannels: nat)
    requires inChannels > 0 && k < ConvWeightCount(outChannels, inChannels)
    ensures OutChannelOf(k, inChannels) < outChannels && KyOf(k, inChannels) < 3
    ensures KxOf(k, inChannels) < 3 && InChannelOf(k, inChannels) < inChannels
    ensures ConvIndex(OutChannelOf(k, inChannels), KyOf(k, inChannels), KxOf(k, inChannels),
                      InChannelOf(k, inChannels), inChannels) == k
  {
    var t := k / inChannels;
    var u := t / 3;
    assert k == t * inChannels + k % inChannels;
    assert t == u * 3 + t % 3;
    assert u == (u / 3) * 3 + u % 3;
    assert t < outChannels * 3 * 3 by {
      if t >= outChannels * 3 * 3 {
        MulMonoLeft(outChannels * 3 * 3, t, inChannels);
      }
    }
  }

  // ---------------------------------------------------------------------
  // Layer 1: five neighbourhood features per channel and a luminance one

  /** Kernel row and column of feature f of a channel: 0 the centre, 1 the
      pixel above, 2 below, 3 to the left, 4 to the right. */
  function FeatureKy(f: nat): nat { if f == 1 then 0 else if f == 2 then 2 else 1 }
  function FeatureKx(f: nat): nat { if f == 3 then 0 else if f == 4 then 2 else 1 }

  /** The intended layer-1 weights: output 5 ch + f copies feature f of input
      channel ch, output 15 averages the three centre samples. */
  function Conv1Weight(oc: nat, ky: nat, kx: nat, ic: nat): real {
    if oc < 15 then
      if ic == oc / 5 && ky == FeatureKy(oc % 5) && kx == FeatureKx(oc % 5) then 1.0 else 0.0
    else if oc == 15 && ky == 1 && kx == 1 then 1.0 / 3.0
    else 0.0
  }

  /** Output 5 ch + f of layer 1 has the single weight 1, on input ch at the
      tap of feature f. */
  lemma Conv1Feature(ch: nat, f: nat, ky: nat, kx: nat, ic: nat)
    requires ch < 3 && f < 5
    ensures Conv1Weight(ch * 5 + f, ky, kx, ic) ==
            if ic == ch && ky == FeatureKy(f) && kx == FeatureKx(f) then 1.0 else 0.0
  {
    DivModUnique(ch * 5 + f, 5, ch, f);
  }

  /** Layer-1 outputs below n hold their weights and the others are zero. */
  ghost predicate Conv1UpTo(d: seq<real>, n: nat) {
    |d| == 432 &&
    forall oc: nat, ky: nat, kx: nat, ic: nat :: oc < 16 && ky < 3 && kx < 3 && ic < 3 ==>
      d[ConvIndex(oc, ky, kx, ic, 3)] == if oc < n then Conv1Weight(oc, ky, kx, ic) else 0.0
  }

  /** Writing feature f of a channel completes output 5 ch + f. */
  lemma Conv1Step(d: seq<real>, channel: nat, f: nat)
    requires channel < 3 && f < 5 && Conv1UpTo(d, channel * 5 + f)
    ensures Conv1UpTo(d[ConvIndex(channel * 5 + f, FeatureKy(f), FeatureKx(f), channel, 3) := 1.0], channel * 5 + f + 1)
  {
    var oc := channel * 5 + f;
    forall ky: nat, kx: nat, ic: nat | ky < 3 && kx < 3 && ic < 3
      ensures Conv1Weight(oc, ky, kx, ic) ==
              if ic == channel && ky == FeatureKy(f) && kx == FeatureKx(f) then 1.0 else 0.0
    {
      Conv1Feature(channel, f, ky, kx, ic);
    }
  }

  /** Writing the centre of each channel into output 15 completes layer 1. */
  lemma Conv1Luma(d: seq<real>)
    requires Conv1UpTo(d, 15)
    ensures Conv1UpTo(d[ConvIndex(15, 1, 1, 0, 3) := 1.0 / 3.0]
                       [ConvIndex(15, 1, 1, 1, 3) := 1.0 / 3.0]
                       [ConvIndex(15, 1, 1, 2, 3) := 1.0 / 3.0], 16)
  {
  }

  /** One assignment of make_conv1_weights' channel loop: weight 1 for
      feature f of a channel, at tap (ky, kx) of output base + f. */
  method SetFeature(data: array<real>, base: nat, channel: nat, f: nat, ky: nat, kx: nat)
    requires channel < 3 && f < 5 && base == channel * 5 && ky == FeatureKy(f) && kx == FeatureKx(f)
    requires Conv1UpTo(data[..], base + f)
    modifies data
    ensures Conv1UpTo(data[..], base + f + 1)
  {
    ghost var d := data[..];
    data[ConvIndex(base + f, ky, kx, channel, InputChannels)] := 1.0;
    Conv1Step(d, channel, f);
  }

  /** make_conv1_weights. */
  method MakeConv1Weights() returns (weights: seq<real>)
    ensures |weights| == ConvWeightCount(Conv1OutChannels, InputChannels)
    ensures weights == Conv1Weights()
    ensures forall oc: nat, ky: nat, kx: nat, ic: nat :: oc < 16 && ky < 3 && kx < 3 && ic < 3 ==>
              weights[ConvIndex(oc, ky, kx, ic, 3)] == Conv1Weight(oc, ky, kx, ic)
  {
    var data := new real[ConvWeightCount(Conv1OutChannels, InputChannels)](_ => 0.0);
    for channel := 0 to InputChannels
      invariant Conv1UpTo(data[..], channel * 5)
    {
      var base := channel * 5;
      SetFeature(data, base, channel, 0, 1, 1); // centre
      SetFeature(data, base, channel, 1, 0, 1); // up
      SetFeature(data, base, channel, 2, 2, 1); // down
      SetFeature(data, base, channel, 3, 1, 0); // left
      SetFeature(data, base, channel, 4, 1, 2); // right
    }
    ghost var d := data[..];
    var inv3 := 1.0 / 3.0;
    data[ConvIndex(15, 1, 1, 0, InputChannels)] := inv3;
    data[ConvIndex(15, 1, 1, 1, InputChannels)] := inv3;
    data[ConvIndex(15, 1, 1, 2, InputChannels)] := inv3;
    Conv1Luma(d);
    weights := data[..];
    Conv1Table(weights);
  }

  // ---------------------------------------------------------------------
  // Layer 2: the identity

  /** The intended layer-2 weights: output oc copies the centre of input oc. */
  function Conv2Weight(oc: nat, ky: nat, kx: nat, ic: nat): real {
    if ic == oc && ky == 1 && kx == 1 then 1.0 else 0.0
  }

  /** make_conv2_weights. */
  method MakeConv2Weights() returns (weights: seq<real>)
    ensures |weights| == ConvWeightCount(Conv2OutChannels, Conv1OutChannels)
    ensures weights == Conv2Weights()
    ensures forall oc: nat, ky: nat, kx: nat, ic: nat :: oc < 16 && ky < 3 && kx < 3 && ic < 16 ==>
              weights[ConvIndex(oc, ky, kx, ic, 16)] == Conv2Weight(oc, ky, kx, ic)
  {
    var data := new real[ConvWeightCount(Conv2OutChannels, Conv1OutChannels)](_ => 0.0);
    for channel := 0 to Conv2OutChannels
      invariant forall oc: nat, ky: nat, kx: nat, ic: nat :: oc < 16 && ky < 3 && kx < 3 && ic < 16 ==>
                  data[ConvIndex(oc, ky, kx, ic, 16)] == if oc < channel then Conv2Weight(oc, ky, kx, ic) else 0.0
    {
      data[ConvIndex(channel, 1, 1, channel, Conv1OutChannels)] := 1.0;
    }
    weights := data[..];
    Conv2Table(weights);
  }

  // ---------------------------------------------------------------------
  // Layer 3: sharpened sub-pixels

  const Main: real := 1.2
  const Strong: real := -0.1
  const Weak: real := -0.05
  const LumaBlend: real := 0.05

  /** Neighbour features each sub-pixel orientation (top-left, top-right,
      bottom-left, bottom-right) weighs strongly and weakly. */
  const StrongPairs: seq<seq<nat>> := [[1, 3], [1, 4], [2, 3], [2, 4]]
  const WeakPairs: seq<seq<nat>> := [[2, 4], [2, 3], [1, 4], [1, 3]]

  /** For each orientation the strong and weak neighbours are two distinct
      features each, disjoint, and together the four neighbours. */
  lemma PairsPartition(o: nat)
    requires o < 4
    ensures |StrongPairs[o]| == 2 && |WeakPairs[o]| == 2
    ensures StrongPairs[o][0] != StrongPairs[o][1] && WeakPairs[o][0] != WeakPairs[o][1]
    ensures forall f :: f in StrongPairs[o] ==> f !in WeakPairs[o]
    ensures forall f :: f in StrongPairs[o] || f in WeakPairs[o] <==> 1 <= f <= 4
  {
  }

  /** The strong and weak neighbours are the ones towards and away from the
      orientation's corner: up for the top row, left for the left column. */
  lemma PairsFollowCorner(o: nat)
    requires o < 4
    ensures (if o < 2 then 1 else 2) in StrongPairs[o] && (if o < 2 then 2 else 1) in WeakPairs[o]
    ensures (if o % 2 == 0 then 3 else 4) in StrongPairs[o] && (if o % 2 == 0 then 4 else 3) in WeakPairs[o]
  {
  }

  /** The centre weight of feature ic for sub-pixel o of colour channel ch:
      1.2 on the channel's centre feature, -0.1 on its strong and -0.05 on
      its weak neighbours, 0.05 on the luminance feature, zero elsewhere. */
  function Conv3Mix(ch: nat, o: nat, ic: nat): real
    requires o < 4
  {
    if ic == ch * 5 then Main
    else if ic == 15 then LumaBlend
    else if ch * 5 < ic && ic - ch * 5 in StrongPairs[o] then Strong
    else if ch * 5 < ic && ic - ch * 5 in WeakPairs[o] then Weak
    else 0.0
  }

  /** The intended layer-3 weights: sub-pixel o of colour channel ch (output
      4 ch + o) reads the centre tap only, with the weights of Conv3Mix. */
  function Conv3Weight(oc: nat, ky: nat, kx: nat, ic: nat): real {
    if oc >= 12 || ky != 1 || kx != 1 then 0.0 else Conv3Mix(oc / 4, oc % 4, ic)
  }

  /** Layer-3 output 4 ch + o, in the terms of its channel and orientation. */
  lemma Conv3Output(ch: nat, o: nat, ky: nat, kx: nat, ic: nat)
    requires ch < 3 && o < 4
    ensures Conv3Weight(ch * 4 + o, ky, kx, ic) == if ky != 1 || kx != 1 then 0.0 else Conv3Mix(ch, o, ic)
  {
    DivModUnique(ch * 4 + o, 4, ch, o);
  }

  /** Layer-3 outputs below n hold their weights and the others are zero. */
  ghost predicate Conv3UpTo(d: seq<real>, n: nat) {
    |d| == 1728 &&
    forall oc: nat, ky: nat, kx: nat, ic: nat :: oc < 12 && ky < 3 && kx < 3 && ic < 16 ==>
      d[ConvIndex(oc, ky, kx, ic, 16)] == if oc < n then Conv3Weight(oc, ky, kx, ic) else 0.0
  }

  /** Output 4 ch + o once its centre weight, its first s strong and first w
      weak neighbour weights and, when luma holds, its luminance weight have
      been written. */
  function Conv3Stage(ch: nat, o: nat, ky: nat, kx: nat, ic: nat, s: nat, w: nat, luma: bool): real
    requires o < 4 && s <= 2 && w <= 2
  {
    if ky != 1 || kx != 1 then 0.0
    else if ic == ch * 5 then Main
    else if luma && ic == 15 then LumaBlend
    else if ch * 5 < ic && ic - ch * 5 in StrongPairs[o][..s] then Strong
    else if ch * 5 < ic && ic - ch * 5 in WeakPairs[o][..w] then Weak
    else 0.0
  }

  /** Outputs below 4 ch + o are complete, output 4 ch + o is at the given
      stage and the rest are zero. */
  ghost predicate Conv3Writing(d: seq<real>, ch: nat, o: nat, s: nat, w: nat, luma: bool) {
    ch < 3 && o < 4 && s <= 2 && w <= 2 && |d| == 1728 &&
    forall oc: nat, ky: nat, kx: nat, ic: nat :: oc < 12 && ky < 3 && kx < 3 && ic < 16 ==>
      d[ConvIndex(oc, ky, kx, ic, 16)] ==
      if oc < ch * 4 + o then Conv3Weight(oc, ky, kx, ic)
      else if oc == ch * 4 + o then Conv3Stage(ch, o, ky, kx, ic, s, w, luma)
      else 0.0
  }

  /** Writing the centre weight starts output 4 ch + o. */
  lemma Conv3Centre(d: seq<real>, ch: nat, o: nat)
    requires ch < 3 && o < 4 && Conv3UpTo(d, ch * 4 + o)
    ensures Conv3Writing(d[ConvIndex(ch * 4 + o, 1, 1, ch * 5, 16) := Main], ch, o, 0, 0, false)
  {
  }

  /** Writing strong neighbour j of output 4 ch + o. */
  lemma Conv3StrongStep(d: seq<real>, ch: nat, o: nat, j: nat)
    requires j < 2 && Conv3Writing(d, ch, o, j, 0, false)
    ensures Conv3Writing(d[ConvIndex(ch * 4 + o, 1, 1, ch * 5 + StrongPairs[o][j], 16) := Strong], ch, o, j + 1, 0, false)
  {
    assert StrongPairs[o][..j + 1] == StrongPairs[o][..j] + [StrongPairs[o][j]];
  }

  /** Writing weak neighbour j of output 4 ch + o, which is none of the
      strong ones. */
  lemma Conv3WeakStep(d: seq<real>, ch: nat, o: nat, j: nat)
    requires j < 2 && Conv3Writing(d, ch, o, 2, j, false)
    ensures Conv3Writing(d[ConvIndex(ch * 4 + o, 1, 1, ch * 5 + WeakPairs[o][j], 16) := Weak], ch, o, 2, j + 1, false)
  {
    PairsPartition(o);
    assert WeakPairs[o][..j + 1] == WeakPairs[o][..j] + [WeakPairs[o][j]];
    assert StrongPairs[o][..2] == StrongPairs[o];
  }

  /** Once all five of its writes are done, output 4 ch + o holds its
      layer-3 weights. */
  lemma Conv3StageComplete(ch: nat, o: nat, ky: nat, kx: nat, ic: nat)
    requires ch < 3 && o < 4
    ensures Conv3Stage(ch, o, ky, kx, ic, 2, 2, true) == Conv3Weight(ch * 4 + o, ky, kx, ic)
  {
    assert StrongPairs[o][..2] == StrongPairs[o];
    assert WeakPairs[o][..2] == WeakPairs[o];
    Conv3Output(ch, o, ky, kx, ic);
  }

  /** Writing the luminance weight completes output 4 ch + o. */
  lemma Conv3Luma(d: seq<real>, ch: nat, o: nat)
    requires Conv3Writing(d, ch, o, 2, 2, false)
    ensures Conv3UpTo(d[ConvIndex(ch * 4 + o, 1, 1, 15, 16) := LumaBlend], ch * 4 + o + 1)
  {
    var n, p := ch * 4 + o, ConvIndex(ch * 4 + o, 1, 1, 15, 16);
    var d' := d[p := LumaBlend];
    forall oc: nat, ky: nat, kx: nat, ic: nat | oc < 12 && ky < 3 && kx < 3 && ic < 16
      ensures d'[ConvIndex(oc, ky, kx, ic, 16)] == if oc < n + 1 then Conv3Weight(oc, ky, kx, ic) else 0.0
    {
      var k := ConvIndex(oc, ky, kx, ic, 16);
      if k == p {
        ConvIndexInjective(oc, ky, kx, ic, n, 1, 1, 15, 16);
        Conv3StageComplete(ch, o, ky, kx, ic);
      } else {
        assert d'[k] == d[k];
        if oc == n {
          Conv3StageComplete(ch, o, ky, kx, ic);
        }
      }
    }
  }

  /** One assignment of the strong-neighbour loop: weight -0.1 on feature
      `feature`, strong neighbour j of output 4 ch + o. */
  method SetStrong(data: array<real>, outChannel: nat, feature: nat, ghost ch: nat, ghost o: nat, ghost j: nat)
    requires j < 2 && Conv3Writing(data[..], ch, o, j, 0, false)
    requires outChannel == ch * 4 + o && feature == ch * 5 + StrongPairs[o][j]
    modifies data
    ensures Conv3Writing(data[..], ch, o, j + 1, 0, false)
  {
    ghost var d := data[..];
    data[ConvIndex(outChannel, 1, 1, feature, Conv2OutChannels)] := Strong;
    Conv3StrongStep(d, ch, o, j);
  }

  /** One assignment of the weak-neighbour loop: weight -0.05 on feature
      `feature`, weak neighbour j of output 4 ch + o. */
  method SetWeak(data: array<real>, outChannel: nat, feature: nat, ghost ch: nat, ghost o: nat, ghost j: nat)
    requires j < 2 && Conv3Writing(data[..], ch, o, 2, j, false)
    requires outChannel == ch * 4 + o && feature == ch * 5 + WeakPairs[o][j]
    modifies data
    ensures Conv3Writing(data[..], ch, o, 2, j + 1, false)
  {
    ghost var d := data[..];
    data[ConvIndex(outChannel, 1, 1, feature, Conv2OutChannels)] := Weak;
    Conv3WeakStep(d, ch, o, j);
  }

  /** The body of make_conv3_weights' orientation loop: the weights of
      output 4 ch + o. */
  method WriteConv3Output(data: array<real>, channel: nat, orientation: nat)
    requires channel < 3 && orientation < 4 && Conv3UpTo(data[..], channel * 4 + orientation)
    modifies data
    ensures Conv3UpTo(data[..], channel * 4 + orientation + 1)
  {
    var featureBase := channel * 5;
    var outChannel := channel * 4 + orientation;
    var centerIndex := ConvIndex(outChannel, 1, 1, featureBase + 0, Conv2OutChannels);
    ghost var d := data[..];
    data[centerIndex] := Main;
    Conv3Centre(d, channel, orientation);
    var strong := StrongPairs[orientation];
    var weak := WeakPairs[orientation];
    for j := 0 to 2
      invariant Conv3Writing(data[..], channel, orientation, j, 0, false)
    {
      var feature := featureBase + strong[j];
      SetStrong(data, outChannel, feature, channel, orientation, j);
    }
    for j := 0 to 2
      invariant Conv3Writing(data[..], channel, orientation, 2, j, false)
    {
      var feature := featureBase + weak[j];
      SetWeak(data, outChannel, feature, channel, orientation, j);
    }
    d := data[..];
    data[ConvIndex(outChannel, 1, 1, 15, Conv2OutChannels)] := LumaBlend;
    Conv3Luma(d, channel, orientation);
  }

  /** make_conv3_weights. */
  method MakeConv3Weights() returns (weights: seq<real>)
    ensures |weights| == ConvWeightCount(Conv3OutChannels, Conv2OutChannels)
    ensures weights == Conv3Weights()
    ensures forall oc: nat, ky: nat, kx: nat, ic: nat :: oc < 12 && ky < 3 && kx < 3 && ic < 16 ==>
              weights[ConvIndex(oc, ky, kx, ic, 16)] == Conv3Weight(oc, ky, kx, ic)
  {
    var data := new real[ConvWeightCount(Conv3OutChannels, Conv2OutChannels)](_ => 0.0);
    for channel := 0 to InputChannels
      invariant Conv3UpTo(data[..], channel * 4)
    {
      for orientation := 0 to 4
        invariant Conv3UpTo(data[..], channel * 4 + orientation)
      {
        WriteConv3Output(data, channel, orientation);
      }
    }
    weights := data[..];
    Conv3Table(weights);
  }

  /** The weight tables (kConv1Weights, kConv2Weights, kConv3Weights): the
      intended weight of every position's coordinates. */
  function Conv1Weights(): seq<real> {
    seq(432, k requires 0 <= k < 432 => Conv1Weight(OutChannelOf(k, 3), KyOf(k, 3), KxOf(k, 3), InChannelOf(k, 3)))
  }
  function Conv2Weights(): seq<real> {
    seq(2304, k requires 0 <= k < 2304 => Conv2Weight(OutChannelOf(k, 16), KyOf(k, 16), KxOf(k, 16), InChannelOf(k, 16)))
  }
  function Conv3Weights(): seq<real> {
    seq(1728, k requires 0 <= k < 1728 => Conv3Weight(OutChannelOf(k, 16), KyOf(k, 16), KxOf(k, 16), InChannelOf(k, 16)))
  }

  /** A table holding the intended layer-1 weight at every position is kConv1Weights. */
  lemma Conv1Table(weights: seq<real>)
    requires |weights| == 432
    requires forall oc: nat, ky: nat, kx: nat, ic: nat :: oc < 16 && ky < 3 && kx < 3 && ic < 3 ==>
               weights[ConvIndex(oc, ky, kx, ic, 3)] == Conv1Weight(oc, ky, kx, ic)
    ensures weights == Conv1Weights()
  {
    forall k | 0 <= k < 432 ensures weights[k] == Conv1Weights()[k] {
      ConvIndexOnto(k, 16, 3);
    }
  }

  lemma Conv2Table(weights: seq<real>)
    requires |weights| == 2304
    requires forall oc: nat, ky: nat, kx: nat, ic: nat :: oc < 16 && ky < 3 && kx < 3 && ic < 16 ==>
               weights[ConvIndex(oc, ky, kx, ic, 16)] == Conv2Weight(oc, ky, kx, ic)
    ensures weights == Conv2Weights()
  {
    forall k | 0 <= k < 2304 ensures weights[k] == Conv2Weights()[k] {
      ConvIndexOnto(k, 16, 16);
    }
  }

  lemma Conv3Table(weights: seq<real>)
    requires |weights| == 1728
    requires forall oc: nat, ky: nat, kx: nat, ic: nat :: oc < 12 && ky < 3 && kx < 3 && ic < 16 ==>
               weights[ConvIndex(oc, ky, kx, ic, 16)] == Conv3Weight(oc, ky, kx, ic)
    ensures weights == Conv3Weights()
  {
    forall k | 0 <= k < 1728 ensures weights[k] == Conv3Weights()[k] {
      ConvIndexOnto(k, 12, 16);
    }
  }

  /** Reading a table at the position of in-range coordinates gives the
      intended weight of those coordinates. */
  lemma WeightsAt(oc: nat, ky: nat, kx: nat, ic: nat)
    requires ky < 3 && kx < 3
    ensures oc < 16 && ic < 3 ==>
              ConvIndex(oc, ky, kx, ic, 3) < 432 &&
              Conv1Weights()[ConvIndex(oc, ky, kx, ic, 3)] == Conv1Weight(oc, ky, kx, ic)
    ensures oc < 16 && ic < 16 ==>
              ConvIndex(oc, ky, kx, ic, 16) < 2304 &&
              Conv2Weights()[ConvIndex(oc, ky, kx, ic, 16)] == Conv2Weight(oc, ky, kx, ic)
    ensures oc < 12 && ic < 16 ==>
              ConvIndex(oc, ky, kx, ic, 16) < 1728 &&
              Conv3Weights()[ConvIndex(oc, ky, kx, ic, 16)] == Conv3Weight(oc, ky, kx, ic)
  {
    if ic < 3 {
      ConvIndexDecode(oc, ky, kx, ic, 3);
      if oc < 16 { ConvIndexBound(oc, ky, kx, ic, 16, 3); }
    }
    if ic < 16 {
      ConvIndexDecode(oc, ky, kx, ic, 16);
      if oc < 16 { ConvIndexBound(oc, ky, kx, ic, 16, 16); }
      if oc < 12 { ConvIndexBound(oc, ky, kx, ic, 12, 16); }
    }
  }

  /** The biases of the three layers (kConv1Bias, kConv2Bias, kConv3Bias):
      all zero. */
  function Conv1Bias(): seq<real> { seq(16, _ => 0.0) }
  function Conv2Bias(): seq<real> { seq(16, _ => 0.0) }
  function Conv3Bias(): seq<real> { seq(12, _ => 0.0) }
}
