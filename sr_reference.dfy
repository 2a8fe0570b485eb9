// What the SR-lite network computes with its fixed weight tables, stated the
// way the Python test suite's reference upscaler (_reference_sr in
// python/pixmask/tests/test_srlite.py) computes it: for every input pixel
// and each of its four sub-pixels, 1.2 times the centre sample, -0.1 times
// the two neighbours towards the sub-pixel's corner, -0.05 times the two
// away from it and 0.05 times the mean of the three centre channels, clamped
// to [0, 1]. The layers are followed one by one: layer 1 extracts the five
// samples of every channel and the luminance, layer 2 passes them through,
// layer 3 mixes them for each sub-pixel, the shuffle places and clamps.
module SrReference {
  import opened Arith
  import opened Grid
  import opened SrWeights
  import opened SrLite

  // ---------------------------------------------------------------------
  // Sums with few non-zero terms.

  /** The sum of the elements of s at the positions ps, in order. */
  function SumAt(s: seq<real>, ps: seq<nat>): real
    requires forall i :: 0 <= i < |ps| ==> ps[i] < |s|
  {
    if |ps| == 0 then 0.0 else SumAt(s, ps[..|ps| - 1]) + s[ps[|ps| - 1]]
  }

  /** Changing an element at no listed position leaves their sum alone. */
  lemma {:induction false} SumAtFrame(s: seq<real>, ps: seq<nat>, p: nat, v: real)
    requires p < |s| && (forall i :: 0 <= i < |ps| ==> ps[i] < |s|) && p !in ps
    ensures SumAt(s[p := v], ps) == SumAt(s, ps)
  {
    if |ps| > 0 {
      var qs := ps[..|ps| - 1];
      assert forall q :: q in qs ==> q in ps;
      SumAtFrame(s, qs, p, v);
    }
  }

  /** A sequence that is zero outside distinct positions ps sums to the sum
      of its elements at ps. */
  lemma {:induction false} SumSparse(s: seq<real>, ps: seq<nat>)
    requires forall i :: 0 <= i < |ps| ==> ps[i] < |s|
    requires forall i, j :: 0 <= i < j < |ps| ==> ps[i] != ps[j]
    requires forall k :: 0 <= k < |s| && k !in ps ==> s[k] == 0.0
    ensures Sum(s) == SumAt(s, ps)
    decreases |ps|
  {
    if |ps| == 0 {
      SumZero(s);
    } else {
      var n := |ps| - 1;
      var p, qs := ps[n], ps[..n];
      assert ps == qs + [p];
      var s' := s[p := 0.0];
      SumUpdate(s, p, 0.0);
      assert p !in qs;
      forall k | 0 <= k < |s'| && k !in qs
        ensures s'[k] == 0.0
      {
        if k != p {
          assert k !in ps;
        }
      }
      SumSparse(s', qs);
      SumAtFrame(s, qs, p, 0.0);
    }
  }

  /** The sum at three positions. */
  lemma SumAt3(s: seq<real>, a: nat, b: nat, c: nat)
    requires a < |s| && b < |s| && c < |s|
    ensures SumAt(s, [a, b, c]) == s[a] + s[b] + s[c]
  {
    assert [a, b, c][..2] == [a, b] && [a, b][..1] == [a] && [a][..0] == [];
    assert SumAt(s, [a]) == s[a];
    assert SumAt(s, [a, b]) == s[a] + s[b];
  }

  /** The sum at six positions. */
  lemma SumAt6(s: seq<real>, a: nat, b: nat, c: nat, d: nat, e: nat, f: nat)
    requires a < |s| && b < |s| && c < |s| && d < |s| && e < |s| && f < |s|
    ensures SumAt(s, [a, b, c, d, e, f]) == s[a] + s[b] + s[c] + s[d] + s[e] + s[f]
  {
    assert [a, b, c, d, e, f][..5] == [a, b, c, d, e];
    assert [a, b, c, d, e][..4] == [a, b, c, d];
    assert [a, b, c, d][..3] == [a, b, c];
    SumAt3(s, a, b, c);
    assert SumAt(s, [a, b, c, d]) == s[a] + s[b] + s[c] + s[d];
    assert SumAt(s, [a, b, c, d, e]) == s[a] + s[b] + s[c] + s[d] + s[e];
  }

  // ---------------------------------------------------------------------
  // Layer 1: feature extraction.

  /** Layer 1 fits any image of three channels. */
  lemma Layer1Fits(w: nat, h: nat, n: nat)
    requires n >= h * w * InputChannels
    ensures Fits(Layer1(w, h), n)
  {
  }

  /** Output 5 ch + f of layer 1 at (y, x) is channel ch of the window
      sample of feature f (the centre, the pixel above, below, left or
      right, mirrored at the border), cut at zero. */
  lemma Layer1Feature(img: seq<real>, w: nat, h: nat, y: nat, x: nat, ch: nat, f: nat)
    requires |img| >= h * w * InputChannels && y < h && x < w && ch < 3 && f < 5
    ensures var v := img[TapIndex(Layer1(w, h), y, x, FeatureKy(f), FeatureKx(f), ch)];
            ConvValue(Layer1(w, h), img, ch * 5 + f, y, x) == if v < 0.0 then 0.0 else v
  {
    var cv, oc, ty, tx := Layer1(w, h), ch * 5 + f, FeatureKy(f), FeatureKx(f);
    forall ky: nat, kx: nat, ic: nat |
      ky < 3 && kx < 3 && ic < cv.inChannels && (ky != ty || kx != tx) &&
      ConvIndex(oc, ky, kx, ic, cv.inChannels) < |cv.weights|
      ensures cv.weights[ConvIndex(oc, ky, kx, ic, cv.inChannels)] == 0.0
    {
      WeightsAt(oc, ky, kx, ic);
      Conv1Feature(ch, f, ky, kx, ic);
    }
    SingleTap(cv, img, oc, y, x, ty, tx);
    var terms := Terms(cv, img, oc, y, x, ty, tx);
    forall ic | 0 <= ic < |terms|
      ensures terms[ic] == if ic == ch then img[TapIndex(cv, y, x, ty, tx, ch)] else 0.0
    {
      WeightsAt(oc, ty, tx, ic);
      Conv1Feature(ch, f, ty, tx, ic);
    }
    SumSingle(terms, ch);
  }

  /** Output 15 of layer 1 at (y, x) is the mean of the three centre
      channels, cut at zero. */
  lemma Layer1Luma(img: seq<real>, w: nat, h: nat, y: nat, x: nat)
    requires |img| >= h * w * InputChannels && y < h && x < w
    ensures var v := (img[TapIndex(Layer1(w, h), y, x, 1, 1, 0)] + img[TapIndex(Layer1(w, h), y, x, 1, 1, 1)] +
                      img[TapIndex(Layer1(w, h), y, x, 1, 1, 2)]) / 3.0;
            ConvValue(Layer1(w, h), img, 15, y, x) == if v < 0.0 then 0.0 else v
  {
    var cv := Layer1(w, h);
    forall ky: nat, kx: nat, ic: nat |
      ky < 3 && kx < 3 && ic < cv.inChannels && (ky != 1 || kx != 1) &&
      ConvIndex(15, ky, kx, ic, cv.inChannels) < |cv.weights|
      ensures cv.weights[ConvIndex(15, ky, kx, ic, cv.inChannels)] == 0.0
    {
      WeightsAt(15, ky, kx, ic);
    }
    SingleTap(cv, img, 15, y, x, 1, 1);
    var terms := Terms(cv, img, 15, y, x, 1, 1);
    forall ic | 0 <= ic < |terms|
      ensures terms[ic] == img[TapIndex(cv, y, x, 1, 1, ic)] / 3.0
    {
      WeightsAt(15, 1, 1, ic);
    }
    SumSparse(terms, [0, 1, 2]);
    SumAt3(terms, 0, 1, 2);
  }

  // ---------------------------------------------------------------------
  // Layer 2: identity.

  /** Feature i of pixel (y, x) of a sixteen-channel stage. */
  function Feature(s: seq<real>, w: nat, h: nat, y: nat, x: nat, i: nat): real
    requires |s| >= h * w * Conv1OutChannels && y < h && x < w && i < Conv1OutChannels
  {
    IdxBound(h, w, Conv1OutChannels, y, x, i);
    s[Idx(w, Conv1OutChannels, y, x, i)]
  }

  /** The sixteen features of pixel (y, x) of a sixteen-channel stage. */
  function Features(s: seq<real>, w: nat, h: nat, y: nat, x: nat): (fs: seq<real>)
    requires |s| >= h * w * Conv1OutChannels && y < h && x < w
    ensures |fs| == Conv1OutChannels
  {
    seq(Conv1OutChannels, i requires 0 <= i < Conv1OutChannels => Feature(s, w, h, y, x, i))
  }

  /** Output oc of layer 2 at (y, x) is feature oc of the same pixel, cut
      at zero. */
  lemma Layer2Pass(s: seq<real>, w: nat, h: nat, y: nat, x: nat, oc: nat)
    requires |s| >= h * w * Conv1OutChannels && y < h && x < w && oc < Conv2OutChannels
    ensures var v := Feature(s, w, h, y, x, oc);
            ConvValue(Layer2(w, h), s, oc, y, x) == if v < 0.0 then 0.0 else v
  {
    var cv := Layer2(w, h);
    forall ky: nat, kx: nat, ic: nat |
      ky < 3 && kx < 3 && ic < cv.inChannels && (ky != 1 || kx != 1) &&
      ConvIndex(oc, ky, kx, ic, cv.inChannels) < |cv.weights|
      ensures cv.weights[ConvIndex(oc, ky, kx, ic, cv.inChannels)] == 0.0
    {
      WeightsAt(oc, ky, kx, ic);
    }
    SingleTap(cv, s, oc, y, x, 1, 1);
    CentreTap(y, h);
    CentreTap(x, w);
    var terms := Terms(cv, s, oc, y, x, 1, 1);
    forall ic | 0 <= ic < |terms|
      ensures terms[ic] == if ic == oc then Feature(s, w, h, y, x, oc) else 0.0
    {
      WeightsAt(oc, 1, 1, ic);
    }
    SumSingle(terms, oc);
  }

  /** On a stage with no negative element layer 2 changes nothing. */
  lemma Layer2Identity(s: seq<real>, w: nat, h: nat)
    requires |s| == h * w * Conv1OutChannels
    requires forall k :: 0 <= k < |s| ==> s[k] >= 0.0
    ensures LayerOut(Layer2(w, h), s) == s
  {
    var out := LayerOut(Layer2(w, h), s);
    forall k | 0 <= k < |s|
      ensures out[k] == s[k]
    {
      FactorsPositive(h, w, Conv1OutChannels, k);
      EncodeDecode(h, w, Conv1OutChannels, k);
      var y, x, oc := RowOf(w, 16, k), ColOf(w, 16, k), ChanOf(w, 16, k);
      Layer2Pass(s, w, h, y, x, oc);
    }
  }

  // ---------------------------------------------------------------------
  // Layer 3: the sub-pixel mix.

  /** A sequence that is zero outside six distinct positions sums to the
      six elements there. */
  lemma SparseSum6(s: seq<real>, a: nat, b: nat, c: nat, d: nat, e: nat, f: nat)
    requires a < |s| && b < |s| && c < |s| && d < |s| && e < |s| && f < |s|
    requires a != b && a != c && a != d && a != e && a != f
    requires b != c && b != d && b != e && b != f
    requires c != d && c != e && c != f
    requires d != e && d != f && e != f
    requires forall k :: 0 <= k < |s| && k != a && k != b && k != c && k != d && k != e && k != f ==> s[k] == 0.0
    ensures Sum(s) == s[a] + s[b] + s[c] + s[d] + s[e] + s[f]
  {
    var ps := [a, b, c, d, e, f];
    forall i, j | 0 <= i < j < |ps|
      ensures ps[i] != ps[j]
    {
    }
    forall k | 0 <= k < |s| && k !in ps
      ensures s[k] == 0.0
    {
      assert k != a && k != b && k != c && k != d && k != e && k != f;
    }
    SumSparse(s, ps);
    SumAt6(s, a, b, c, d, e, f);
  }

  /** The centre weights of output 4 ch + o of layer 3: 1.2 on the centre
      feature of channel ch, -0.1 on its strong neighbours b and c, -0.05 on
      its weak neighbours d and e, 0.05 on the luminance feature, zero on
      every other feature; the six features are distinct. */
  lemma MixWeights(ch: nat, o: nat, b: nat, c: nat, d: nat, e: nat)
    requires ch < 3 && o < 4
    requires b == ch * 5 + StrongPairs[o][0] && c == ch * 5 + StrongPairs[o][1]
    requires d == ch * 5 + WeakPairs[o][0] && e == ch * 5 + WeakPairs[o][1]
    ensures ch * 5 < b < 15 && ch * 5 < c < 15 && ch * 5 < d < 15 && ch * 5 < e < 15
    ensures b != c && b != d && b != e && c != d && c != e && d != e
    ensures Conv3Mix(ch, o, ch * 5) == Main && Conv3Mix(ch, o, 15) == LumaBlend
    ensures Conv3Mix(ch, o, b) == Strong && Conv3Mix(ch, o, c) == Strong
    ensures Conv3Mix(ch, o, d) == Weak && Conv3Mix(ch, o, e) == Weak
    ensures forall ic :: 0 <= ic < 16 && ic != ch * 5 && ic != b && ic != c && ic != d && ic != e && ic != 15 ==>
              Conv3Mix(ch, o, ic) == 0.0
  {
    PairsPartition(o);
    forall ic | 0 <= ic < 16 && ic != ch * 5 && ic != b && ic != c && ic != d && ic != e && ic != 15
      ensures Conv3Mix(ch, o, ic) == 0.0
    {
      if ch * 5 < ic {
        var f := ic - ch * 5;
        assert f != StrongPairs[o][0] && f != StrongPairs[o][1];
        assert f != WeakPairs[o][0] && f != WeakPairs[o][1];
      }
    }
  }

  /** The centre taps of output 4 ch + o of layer 3 sum to the mix of the
      six features. */
  lemma MixSum(terms: seq<real>, fs: seq<real>, ch: nat, o: nat)
    requires ch < 3 && o < 4
    requires |terms| == 16 && |fs| == 16
    requires forall ic :: 0 <= ic < 16 ==> terms[ic] == Conv3Mix(ch, o, ic) * fs[ic]
    ensures |StrongPairs[o]| == 2 && |WeakPairs[o]| == 2
    ensures var base := ch * 5;
            Sum(terms) ==
              Main * fs[base] + Strong * fs[base + StrongPairs[o][0]] + Strong * fs[base + StrongPairs[o][1]] +
              Weak * fs[base + WeakPairs[o][0]] + Weak * fs[base + WeakPairs[o][1]] + LumaBlend * fs[15]
  {
    PairsPartition(o);
    var b, c := ch * 5 + StrongPairs[o][0], ch * 5 + StrongPairs[o][1];
    var d, e := ch * 5 + WeakPairs[o][0], ch * 5 + WeakPairs[o][1];
    MixWeights(ch, o, b, c, d, e);
    SparseSum6(terms, ch * 5, b, c, d, e, 15);
  }

  /** The products of the centre tap of output 4 ch + o of layer 3. */
  function MixTerms(fs: seq<real>, ch: nat, o: nat): (terms: seq<real>)
    requires |fs| == 16 && o < 4
    ensures |terms| == 16
  {
    seq(16, ic requires 0 <= ic < 16 => Conv3Mix(ch, o, ic) * fs[ic])
  }

  /** The centre tap of the window around (y, x) reads the pixel itself:
      channel ic of it is the mix term of ic over the features fs of
      (y, x), when the kernel holds the mix weight. */
  lemma CentreTerm(cv: Conv, input: seq<real>, oc: nat, y: nat, x: nat, ic: nat, fs: seq<real>, ch: nat, o: nat)
    requires Fits(cv, |input|) && oc < cv.outChannels && y < cv.height && x < cv.width && ic < cv.inChannels
    requires |fs| == 16 && ic < 16 && o < 4
    requires ConvIndex(oc, 1, 1, ic, cv.inChannels) < |cv.weights|
    requires cv.weights[ConvIndex(oc, 1, 1, ic, cv.inChannels)] == Conv3Mix(ch, o, ic)
    requires Idx(cv.width, cv.inChannels, y, x, ic) < |input| && fs[ic] == input[Idx(cv.width, cv.inChannels, y, x, ic)]
    ensures Terms(cv, input, oc, y, x, 1, 1)[ic] == MixTerms(fs, ch, o)[ic]
  {
    ConvIndexBound(oc, 1, 1, ic, cv.outChannels, cv.inChannels);
    CentreTap(y, cv.height);
    CentreTap(x, cv.width);
    assert TapIndex(cv, y, x, 1, 1, ic) == Idx(cv.width, cv.inChannels, y, x, ic);
  }

  /** Output 4 ch + o of layer 3 reads only the centre tap, and has no
      bias. */
  lemma Layer3Single(s: seq<real>, w: nat, h: nat, y: nat, x: nat, ch: nat, o: nat)
    requires |s| >= h * w * Conv2OutChannels && y < h && x < w && ch < 3 && o < 4
    ensures ConvValue(Layer3(w, h), s, ch * 4 + o, y, x) == Sum(Terms(Layer3(w, h), s, ch * 4 + o, y, x, 1, 1))
  {
    var cv, oc := Layer3(w, h), ch * 4 + o;
    forall ky: nat, kx: nat, ic: nat |
      ky < 3 && kx < 3 && ic < cv.inChannels && (ky != 1 || kx != 1) &&
      ConvIndex(oc, ky, kx, ic, cv.inChannels) < |cv.weights|
      ensures cv.weights[ConvIndex(oc, ky, kx, ic, cv.inChannels)] == 0.0
    {
      WeightsAt(oc, ky, kx, ic);
      Conv3Output(ch, o, ky, kx, ic);
    }
    SingleTap(cv, s, oc, y, x, 1, 1);
    assert cv.bias[oc] == 0.0;
  }

  /** The table entry of the centre tap of output 4 ch + o of layer 3. */
  lemma CentreWeightAt(ch: nat, o: nat, ic: nat)
    requires ch < 3 && o < 4 && ic < 16
    ensures ConvIndex(ch * 4 + o, 1, 1, ic, 16) < |Conv3Weights()|
    ensures Conv3Weights()[ConvIndex(ch * 4 + o, 1, 1, ic, 16)] == Conv3Mix(ch, o, ic)
  {
    WeightsAt(ch * 4 + o, 1, 1, ic);
    Conv3Output(ch, o, 1, 1, ic);
  }

  /** Channel ic of the centre tap of output 4 ch + o of layer 3. */
  lemma Layer3Term(s: seq<real>, w: nat, h: nat, y: nat, x: nat, ch: nat, o: nat, ic: nat)
    requires |s| >= h * w * Conv2OutChannels && y < h && x < w && ch < 3 && o < 4 && ic < 16
    ensures Terms(Layer3(w, h), s, ch * 4 + o, y, x, 1, 1)[ic] == MixTerms(Features(s, w, h, y, x), ch, o)[ic]
  {
    var cv := Layer3(w, h);
    CentreWeightAt(ch, o, ic);
    IdxBound(h, w, 16, y, x, ic);
    assert Fits(cv, |s|);
    assert Features(s, w, h, y, x)[ic] == s[Idx(cv.width, cv.inChannels, y, x, ic)];
    CentreTerm(cv, s, ch * 4 + o, y, x, ic, Features(s, w, h, y, x), ch, o);
  }

  /** The centre tap of output 4 ch + o of layer 3, channel by channel. */
  lemma Layer3Terms(s: seq<real>, w: nat, h: nat, y: nat, x: nat, ch: nat, o: nat)
    requires |s| >= h * w * Conv2OutChannels && y < h && x < w && ch < 3 && o < 4
    ensures Terms(Layer3(w, h), s, ch * 4 + o, y, x, 1, 1) == MixTerms(Features(s, w, h, y, x), ch, o)
  {
    forall ic | 0 <= ic < 16
      ensures Terms(Layer3(w, h), s, ch * 4 + o, y, x, 1, 1)[ic] == MixTerms(Features(s, w, h, y, x), ch, o)[ic]
    {
      Layer3Term(s, w, h, y, x, ch, o, ic);
    }
  }

  /** Output 4 ch + o of layer 3 is the sum of its mix terms. */
  lemma Layer3Sum(s: seq<real>, w: nat, h: nat, y: nat, x: nat, ch: nat, o: nat)
    requires |s| >= h * w * Conv2OutChannels && y < h && x < w && ch < 3 && o < 4
    ensures ConvValue(Layer3(w, h), s, ch * 4 + o, y, x) == Sum(MixTerms(Features(s, w, h, y, x), ch, o))
  {
    Layer3Single(s, w, h, y, x, ch, o);
    Layer3Terms(s, w, h, y, x, ch, o);
  }

  /** Output 4 ch + o of layer 3 at (y, x): 1.2 times the centre feature of
      channel ch, -0.1 times each of its strong and -0.05 times each of its
      weak neighbour features, 0.05 times the luminance feature. */
  lemma Layer3Value(s: seq<real>, w: nat, h: nat, y: nat, x: nat, ch: nat, o: nat)
    requires |s| >= h * w * Conv2OutChannels && y < h && x < w && ch < 3 && o < 4
    ensures |StrongPairs[o]| == 2 && |WeakPairs[o]| == 2
    ensures var fs, base := Features(s, w, h, y, x), ch * 5;
            ConvValue(Layer3(w, h), s, ch * 4 + o, y, x) ==
              Main * fs[base] + Strong * fs[base + StrongPairs[o][0]] + Strong * fs[base + StrongPairs[o][1]] +
              Weak * fs[base + WeakPairs[o][0]] + Weak * fs[base + WeakPairs[o][1]] + LumaBlend * fs[15]
  {
    Layer3Sum(s, w, h, y, x, ch, o);
    var fs := Features(s, w, h, y, x);
    MixSum(MixTerms(fs, ch, o), fs, ch, o);
  }

  // ---------------------------------------------------------------------
  // The reference upscaler of the test suite.

  /** Channel c of the image at (y, x), the position mirrored into the image
      the way the reference mirrors it. */
  function Sample(img: seq<real>, w: nat, h: nat, y: int, x: int, c: nat): real
    requires |img| >= h * w * 3 && w > 0 && h > 0 && c < 3
  {
    var sy, sx := ReferenceMirror(y, h), ReferenceMirror(x, w);
    IdxBound(h, w, 3, sy, sx, c);
    img[Idx(w, 3, sy, sx, c)]
  }

  /** The five samples of channel c around (y, x): axis 0 is the pixel
      itself, 1 the pixel above, 2 below, 3 to the left and 4 to the
      right. */
  function Neighbour(img: seq<real>, w: nat, h: nat, y: nat, x: nat, c: nat, axis: nat): real
    requires |img| >= h * w * 3 && w > 0 && h > 0 && c < 3 && axis < 5
  {
    match axis
    case 0 => Sample(img, w, h, y, x, c)
    case 1 => Sample(img, w, h, y - 1, x, c)
    case 2 => Sample(img, w, h, y + 1, x, c)
    case 3 => Sample(img, w, h, y, x - 1, c)
    case _ => Sample(img, w, h, y, x + 1, c)
  }

  /** The mean of the three channels of the pixel itself. */
  function Luminance(img: seq<real>, w: nat, h: nat, y: nat, x: nat): real
    requires |img| >= h * w * 3 && w > 0 && h > 0
  {
    (Neighbour(img, w, h, y, x, 0, 0) + Neighbour(img, w, h, y, x, 1, 0) + Neighbour(img, w, h, y, x, 2, 0)) / 3.0
  }

  /** The reference's table: for each sub-pixel (top-left, top-right,
      bottom-left, bottom-right) the two axes it weighs strongly and the
      two it weighs weakly. */
  function ReferenceAxes(sub: nat): (axes: (seq<nat>, seq<nat>))
    requires sub < 4
    ensures |axes.0| == 2 && |axes.1| == 2
  {
    if sub == 0 then ([1, 3], [2, 4])
    else if sub == 1 then ([1, 4], [2, 3])
    else if sub == 2 then ([2, 3], [1, 4])
    else ([2, 4], [1, 3])
  }

  /** Sub-pixel sub of channel c of pixel (y, x) in the reference. */
  function ReferenceValue(img: seq<real>, w: nat, h: nat, y: nat, x: nat, sub: nat, c: nat): real
    requires |img| >= h * w * 3 && w > 0 && h > 0 && c < 3 && sub < 4
  {
    var (strong, weak) := ReferenceAxes(sub);
    var value := 1.2 * Neighbour(img, w, h, y, x, c, 0) +
                 -0.1 * Neighbour(img, w, h, y, x, c, strong[0]) + -0.1 * Neighbour(img, w, h, y, x, c, strong[1]) +
                 -0.05 * Neighbour(img, w, h, y, x, c, weak[0]) + -0.05 * Neighbour(img, w, h, y, x, c, weak[1]) +
                 0.05 * Luminance(img, w, h, y, x);
    Clamp01(value)
  }

  /** The reference upscaler: output (oy, ox, c) is sub-pixel
      (oy mod 2) * 2 + ox mod 2 of channel c of input pixel (oy / 2, ox / 2). */
  function ReferenceSr(img: seq<real>, w: nat, h: nat): (out: seq<real>)
    requires |img| >= h * w * 3
    ensures |out| == (2 * h) * (2 * w) * 3
  {
    var n := (2 * h) * (2 * w) * 3;
    seq(n, k requires 0 <= k < n =>
      ShuffleTargetOnto(h, w, 3, k);
      var oy, ox, c := RowOf(2 * w, 3, k), ColOf(2 * w, 3, k), ChanOf(2 * w, 3, k);
      ReferenceValue(img, w, h, oy / 2, ox / 2, SubOf(oy, ox), c))
  }

  // ---------------------------------------------------------------------
  // The network computes the reference.

  /** No element of the image is negative. */
  predicate NonNegative(img: seq<real>) {
    forall k :: 0 <= k < |img| ==> img[k] >= 0.0
  }

  /** The window tap (ky, kx) of layer 1 reads the reference's sample at
      offset (ky - 1, kx - 1). */
  lemma TapIsSample(img: seq<real>, w: nat, h: nat, y: nat, x: nat, ky: nat, kx: nat, c: nat)
    requires |img| >= h * w * 3 && y < h && x < w && ky < 3 && kx < 3 && c < 3
    ensures img[TapIndex(Layer1(w, h), y, x, ky, kx, c)] == Sample(img, w, h, y + ky - 1, x + kx - 1, c)
  {
    MirrorAgreesReference(y + ky - 1, h);
    MirrorAgreesReference(x + kx - 1, w);
  }

  /** Feature i of a pixel after a sixteen-channel layer is the layer's
      output i there. */
  lemma FeatureOfLayer(cv: Conv, input: seq<real>, y: nat, x: nat, i: nat)
    requires Fits(cv, |input|) && cv.outChannels == Conv1OutChannels && y < cv.height && x < cv.width && i < 16
    ensures |LayerOut(cv, input)| == cv.height * cv.width * Conv1OutChannels
    ensures Features(LayerOut(cv, input), cv.width, cv.height, y, x)[i] == ConvValue(cv, input, i, y, x)
  {
    LayerOutAt(cv, input, y, x, i);
  }

  /** The reference's sample f is the one at the window offset of layer-1
      feature f. */
  lemma NeighbourOffset(img: seq<real>, w: nat, h: nat, y: nat, x: nat, c: nat, f: nat)
    requires |img| >= h * w * 3 && w > 0 && h > 0 && c < 3 && f < 5
    ensures Neighbour(img, w, h, y, x, c, f) == Sample(img, w, h, y + FeatureKy(f) - 1, x + FeatureKx(f) - 1, c)
  {
  }

  /** Output 5 c + f of layer 1 at (y, x) is the reference's sample f of
      channel c, for an image without negative elements. */
  lemma Layer1Sample(img: seq<real>, w: nat, h: nat, y: nat, x: nat, c: nat, f: nat)
    requires |img| >= h * w * InputChannels && NonNegative(img) && y < h && x < w && c < 3 && f < 5
    ensures ConvValue(Layer1(w, h), img, c * 5 + f, y, x) == Neighbour(img, w, h, y, x, c, f)
  {
    var ky, kx := FeatureKy(f), FeatureKx(f);
    Layer1Feature(img, w, h, y, x, c, f);
    assert img[TapIndex(Layer1(w, h), y, x, ky, kx, c)] >= 0.0;
    TapIsSample(img, w, h, y, x, ky, kx, c);
    NeighbourOffset(img, w, h, y, x, c, f);
  }

  /** Feature 5 c + f of a pixel after layer 1 is the reference's sample f
      of channel c, for an image without negative elements. */
  lemma FeatureIsNeighbour(img: seq<real>, w: nat, h: nat, y: nat, x: nat, c: nat, f: nat)
    requires |img| >= h * w * InputChannels && NonNegative(img) && y < h && x < w && c < 3 && f < 5
    ensures |LayerOut(Layer1(w, h), img)| == h * w * Conv1OutChannels
    ensures Features(LayerOut(Layer1(w, h), img), w, h, y, x)[c * 5 + f] == Neighbour(img, w, h, y, x, c, f)
  {
    FeatureOfLayer(Layer1(w, h), img, y, x, c * 5 + f);
    Layer1Sample(img, w, h, y, x, c, f);
  }

  /** The reference's luminance is the mean of the centre taps of layer 1. */
  lemma LuminanceOfTaps(img: seq<real>, w: nat, h: nat, y: nat, x: nat)
    requires |img| >= h * w * InputChannels && y < h && x < w
    ensures Luminance(img, w, h, y, x) ==
            (img[TapIndex(Layer1(w, h), y, x, 1, 1, 0)] + img[TapIndex(Layer1(w, h), y, x, 1, 1, 1)] +
             img[TapIndex(Layer1(w, h), y, x, 1, 1, 2)]) / 3.0
  {
    TapIsSample(img, w, h, y, x, 1, 1, 0);
    TapIsSample(img, w, h, y, x, 1, 1, 1);
    TapIsSample(img, w, h, y, x, 1, 1, 2);
  }

  /** Output 15 of layer 1 is the reference's luminance on an image
      without negative elements. */
  lemma Layer1Luminance(img: seq<real>, w: nat, h: nat, y: nat, x: nat)
    requires |img| >= h * w * InputChannels && NonNegative(img) && y < h && x < w
    ensures ConvValue(Layer1(w, h), img, 15, y, x) == Luminance(img, w, h, y, x)
  {
    var cv := Layer1(w, h);
    Layer1Luma(img, w, h, y, x);
    LuminanceOfTaps(img, w, h, y, x);
    assert img[TapIndex(cv, y, x, 1, 1, 0)] >= 0.0 && img[TapIndex(cv, y, x, 1, 1, 1)] >= 0.0 &&
           img[TapIndex(cv, y, x, 1, 1, 2)] >= 0.0;
  }


  /** Feature 15 of a pixel after layer 1 is the reference's luminance, for
      an image without negative elements. */
  lemma LumaIsLuminance(img: seq<real>, w: nat, h: nat, y: nat, x: nat)
    requires |img| >= h * w * InputChannels && NonNegative(img) && y < h && x < w
    ensures |LayerOut(Layer1(w, h), img)| == h * w * Conv1OutChannels
    ensures Features(LayerOut(Layer1(w, h), img), w, h, y, x)[15] == Luminance(img, w, h, y, x)
  {
    FeatureOfLayer(Layer1(w, h), img, y, x, 15);
    Layer1Luminance(img, w, h, y, x);
  }

  /** Layer 2 passes the output of layer 1 through unchanged. */
  lemma Stage2Identity(img: seq<real>, w: nat, h: nat)
    requires |img| >= h * w * InputChannels
    ensures |LayerOut(Layer1(w, h), img)| == h * w * Conv1OutChannels
    ensures LayerOut(Layer2(w, h), LayerOut(Layer1(w, h), img)) == LayerOut(Layer1(w, h), img)
  {
    var stage1 := LayerOut(Layer1(w, h), img);
    forall k | 0 <= k < |stage1|
      ensures stage1[k] >= 0.0
    {
      LayerOutRelu(Layer1(w, h), img, k);
    }
    Layer2Identity(stage1, w, h);
  }

  /** Element (2 y + sub / 2, 2 x + sub mod 2, c) of the network's output is
      output 4 c + sub of layer 3 over the features of layer 1, clamped. */
  lemma ForwardAt(img: seq<real>, w: nat, h: nat, y: nat, x: nat, c: nat, sub: nat)
    requires |img| >= h * w * InputChannels && y < h && x < w && c < 3 && sub < 4
    ensures |LayerOut(Layer1(w, h), img)| == h * w * Conv1OutChannels
    ensures ShuffleTarget(w, 3, y, x, c, sub) < |Forward(img, w, h)|
    ensures Forward(img, w, h)[ShuffleTarget(w, 3, y, x, c, sub)] ==
            Clamp01(ConvValue(Layer3(w, h), LayerOut(Layer1(w, h), img), c * 4 + sub, y, x))
  {
    var stage1 := LayerOut(Layer1(w, h), img);
    Stage2Identity(img, w, h);
    var stage3 := LayerOut(Layer3(w, h), stage1);
    LayerOutAt(Layer3(w, h), stage1, y, x, c * 4 + sub);
    ShuffledAt(stage3, w, h, InputChannels, y, x, c, sub);
  }

  /** The five features of channel c of a pixel after layer 1 are the
      reference's five samples, for an image without negative elements. */
  lemma NeighbourFeatures(img: seq<real>, w: nat, h: nat, y: nat, x: nat, c: nat)
    requires |img| >= h * w * InputChannels && NonNegative(img) && y < h && x < w && c < 3
    ensures |LayerOut(Layer1(w, h), img)| == h * w * Conv1OutChannels
    ensures forall a :: 0 <= a < 5 ==>
              Features(LayerOut(Layer1(w, h), img), w, h, y, x)[c * 5 + a] == Neighbour(img, w, h, y, x, c, a)
  {
    forall a | 0 <= a < 5
      ensures Features(LayerOut(Layer1(w, h), img), w, h, y, x)[c * 5 + a] == Neighbour(img, w, h, y, x, c, a)
    {
      FeatureIsNeighbour(img, w, h, y, x, c, a);
    }
  }

  /** The layer-3 mix over features that are the reference's samples and
      luminance is the reference's unclamped value: the weights and the
      axis table agree. */
  lemma MixAgrees(fs: seq<real>, n: seq<real>, lum: real, c: nat, sub: nat)
    requires |fs| == 16 && |n| == 5 && c < 3 && sub < 4
    requires forall a :: 0 <= a < 5 ==> fs[c * 5 + a] == n[a]
    requires fs[15] == lum
    ensures |StrongPairs[sub]| == 2 && |WeakPairs[sub]| == 2
    ensures var base, (strong, weak) := c * 5, ReferenceAxes(sub);
            Main * fs[base] + Strong * fs[base + StrongPairs[sub][0]] + Strong * fs[base + StrongPairs[sub][1]] +
            Weak * fs[base + WeakPairs[sub][0]] + Weak * fs[base + WeakPairs[sub][1]] + LumaBlend * fs[15] ==
            1.2 * n[0] + -0.1 * n[strong[0]] + -0.1 * n[strong[1]] + -0.05 * n[weak[0]] + -0.05 * n[weak[1]] + 0.05 * lum
  {
    PairsPartition(sub);
    assert StrongPairs[sub] == ReferenceAxes(sub).0 && WeakPairs[sub] == ReferenceAxes(sub).1;
  }

  /** Each sub-pixel the network writes is the reference's value. */
  lemma PixelIsReference(img: seq<real>, w: nat, h: nat, y: nat, x: nat, c: nat, sub: nat)
    requires |img| >= h * w * InputChannels && NonNegative(img) && y < h && x < w && c < 3 && sub < 4
    ensures ShuffleTarget(w, 3, y, x, c, sub) < |Forward(img, w, h)|
    ensures Forward(img, w, h)[ShuffleTarget(w, 3, y, x, c, sub)] == ReferenceValue(img, w, h, y, x, sub, c)
  {
    ForwardAt(img, w, h, y, x, c, sub);
    Layer3Value(LayerOut(Layer1(w, h), img), w, h, y, x, c, sub);
    NeighbourFeatures(img, w, h, y, x, c);
    LumaIsLuminance(img, w, h, y, x);
    var n := seq(5, a requires 0 <= a < 5 => Neighbour(img, w, h, y, x, c, a));
    MixAgrees(Features(LayerOut(Layer1(w, h), img), w, h, y, x), n, Luminance(img, w, h, y, x), c, sub);
  }

  /** The network computes the reference upscaler on every image without
      negative elements. */
  lemma ForwardIsReference(img: seq<real>, w: nat, h: nat)
    requires |img| >= h * w * InputChannels && NonNegative(img)
    ensures Forward(img, w, h) == ReferenceSr(img, w, h)
  {
    var out, reference := Forward(img, w, h), ReferenceSr(img, w, h);
    forall k | 0 <= k < |reference|
      ensures k < |out| && out[k] == reference[k]
    {
      ShuffleTargetOnto(h, w, 3, k);
      var oy, ox, c := RowOf(2 * w, 3, k), ColOf(2 * w, 3, k), ChanOf(2 * w, 3, k);
      PixelIsReference(img, w, h, oy / 2, ox / 2, c, SubOf(oy, ox));
    }
    assert |out| == |reference|;
  }
}
