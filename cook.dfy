/**
 * The driver of cook.js: reading the two form fields, fitting the original
 * image onto the canvas, and the loop that applies `iterations` operations
 * picked at random from the table of seven (cook.js:36-47, 249-265).
 */
module Cook {
  import opened Numeric
  import opened Raster
  import Adjust
  import Convolution
  import Normalize
  import Params

  // ---------------------------------------------------------------- settings

  /** The value parseInt(field, 10) gives: an integer, or NaN. */
  datatype Parsed = NaN | Int(n: int)

  /** `parseInt(iterationsInput.value, 10) || 5` (cook.js:253). */
  function Iterations(p: Parsed): (n: int)
    ensures n != 0
    ensures p.Int? && p.n != 0 ==> n == p.n
    ensures p == NaN || p == Int(0) ==> n == 5
  {
    match p
    case NaN => 5
    case Int(k) => if k == 0 then 5 else k
  }

  /** `(parseInt(strengthInput.value, 10) || 100) / 100` (cook.js:254). */
  function Strength(p: Parsed): (s: real)
    ensures s != 0.0
    ensures p.Int? && p.n != 0 ==> s == p.n as real / 100.0
    ensures p == NaN || p == Int(0) ==> s == 1.0
    ensures p.Int? && 0 <= p.n <= 100 ==> 0.0 < s <= 1.0
  {
    match p
    case NaN => 1.0
    case Int(k) => if k == 0 then 1.0 else k as real / 100.0
  }

  /** The number of times the loop `for (i = 0; i < iterations; i++)` runs. */
  function Runs(iterations: int): (n: nat)
    ensures iterations >= 0 ==> n == iterations
    ensures iterations < 0 ==> n == 0
  {
    if iterations < 0 then 0 else iterations
  }

  // -------------------------------------------------------------- the canvas

  /**
   * The canvas size drawImageToCanvas chooses (cook.js:36-45): a width
   * above 800 becomes 800 and the height is scaled by the same ratio;
   * canvas.height is an unsigned long, so the fractional part is dropped.
   * The height alone is never limited.
   */
  function FitSize(w: nat, h: nat): (size: (nat, nat))
    ensures size.0 <= 800 && size.0 <= w && size.1 <= h
    ensures w <= 800 ==> size == (w, h)
    ensures w > 800 ==> size.0 == 800 && size.1 * w <= 800 * h < (size.1 + 1) * w
  {
    if w > 800 then
      var nh := 800 * h / w;
      FitHeight(w, h, nh);
      (800, nh)
    else (w, h)
  }

  lemma FitHeight(w: nat, h: nat, nh: int)
    requires w > 800 && nh == 800 * h / w
    ensures 0 <= nh <= h && nh * w <= 800 * h < (nh + 1) * w
  {
    var m := 800 * h;
    assert m == nh * w + m % w;
    assert 0 <= m % w < w;
    assert h * w >= 800 * h;
    assert (nh - h) * w == nh * w - h * w;
    MulBelow(nh - h, w);
    MulBelow(-nh, w);
  }

  /**
   * An image more than 800 times wider than tall gets a canvas of height 0,
   * for instance 1700 x 2 is drawn at 800 x 0.
   */
  lemma FitSizeCanBeEmpty(w: nat, h: nat)
    requires w > 800 * h
    ensures FitSize(w, h).1 == 0
    ensures FitSize(1700, 2) == (800, 0)
  {
    DivModUnique(800 * h, w, 0, 800 * h);
    DivModUnique(1600, 1700, 0, 1600);
  }

  /**
   * The temporary canvas of op_resize can have height 0 on a canvas that is
   * not empty: a 100 x 10 image, or 1600 x 38 fitted to 800 x 19, with the
   * draw 0 at strength 1. cook.js then clears the canvas and drawImage throws.
   */
  lemma ResizeCanEmpty(w: nat, h: nat, px: int)
    requires w > 0 && px >= 1 && px * h < w
    ensures Params.ResizeHeight(px, w, h) == 0
    ensures FitSize(100, 10) == (100, 10) && Params.ResizeWidth(0.0, 100, 1.0) == 5
    ensures Params.ResizeHeight(5, 100, 10) == 0
    ensures FitSize(1600, 38) == (800, 19) && Params.ResizeWidth(0.0, 800, 1.0) == 40
    ensures Params.ResizeHeight(40, 800, 19) == 0
  {
    DivModUnique(30400, 1600, 19, 0);
    assert RandInt(0.0, 5, 95) == 5;
  }

  // -------------------------------------------------------------- operations

  /** The table `operations` (cook.js:249), in its order. */
  datatype Op = Modulate | Compress | Contrast | Resize | Edge | Noise | Normalize

  const Operations: seq<Op> := [Modulate, Compress, Contrast, Resize, Edge, Noise, Normalize]

  /** `randInt(0, operations.length - 1)` (cook.js:260): always a valid index. */
  function PickIndex(r: real): (i: int)
    requires 0.0 <= r < 1.0
    ensures 0 <= i < |Operations|
  {
    RandInt(r, 0, |Operations| - 1)
  }

  function Pick(r: real): Op
    requires 0.0 <= r < 1.0
  {
    Operations[PickIndex(r)]
  }

  /** Every operation of the table is picked by some draw. */
  lemma PickReaches(i: nat)
    requires i < |Operations|
    ensures var r := i as real / 7.0; 0.0 <= r < 1.0 && Pick(r) == Operations[i]
  {
    RandIntReaches(0, 6, i);
  }

  /**
   * The Math.random() results one iteration consumes: the draw that picks
   * the operation, up to two for its settings (op_modulate uses both, the
   * other parametrised operations the first), and the per-pixel draws of
   * addNoise.
   */
  datatype Draws = Draws(pick: real, first: real, second: real, perPixel: seq<real>)

  predicate DrawsFit(d: Draws, pixels: nat)
  {
    && 0.0 <= d.pick < 1.0 && 0.0 <= d.first < 1.0 && 0.0 <= d.second < 1.0
    && Adjust.NoiseDraws(d.perPixel, pixels)
  }

  /** Every iteration's draws fit a canvas of `pixels` pixels. */
  predicate AllFit(ds: seq<Draws>, pixels: nat)
  {
    forall i :: 0 <= i < |ds| ==> DrawsFit(ds[i], pixels)
  }

  lemma PrefixFits(ds: seq<Draws>, n: nat, pixels: nat)
    requires AllFit(ds, pixels) && n <= |ds|
    ensures AllFit(ds[..n], pixels)
  {
  }

  /**
   * The canvas channels after one operation, with `jpeg` standing for the
   * JPEG round trip of compressQuality and `resample` for the drawImage
   * pair of resizeShuffle. Every operation leaves a w x h buffer of channel
   * values.
   */
  function Applied(op: Op, w: nat, h: nat, s: seq<int>, d: Draws, strength: real,
                   jpeg: Redraw, resample: Redraw): (r: seq<int>)
    requires |s| == w * h * 4 && AllBytes(s) && DrawsFit(d, w * h)
    requires KeepsShape(jpeg) && KeepsShape(resample)
    ensures |r| == w * h * 4 && AllBytes(r)
  {
    match op
    case Modulate =>
      var sat := Params.ModulateSaturation(d.first, strength);
      Adjust.SaturationRewrites(s, sat);
      var t := Adjust.Saturated(s, sat);
      Adjust.BrightnessRewrites(t, Params.ModulateBrightness(d.second, strength));
      Adjust.Brightened(t, Params.ModulateBrightness(d.second, strength))
    case Compress =>
      jpeg(w, h, s, Params.JpegQuality(Params.CompressFactorAsWritten(d.first, strength)))
    case Contrast =>
      Adjust.ContrastRewrites(s, Params.ContrastValue(d.first, strength));
      Adjust.Contrasted(s, Params.ContrastValue(d.first, strength))
    case Resize =>
      resample(w, h, s, Params.ResizeWidth(d.first, w, strength) as real)
    case Edge =>
      Convolution.ConvolvedBytes(s, w, h, Convolution.EdgeKernel);
      Convolution.Convolved(s, w, h, Convolution.EdgeKernel)
    case Noise =>
      Adjust.NoiseRewrites(s, Params.NoiseAmount(strength), d.perPixel);
      Adjust.Noised(s, Params.NoiseAmount(strength), d.perPixel)
    case Normalize =>
      Normalize.NormalizeRewrites(s);
      Normalize.Normalized(s)
  }

  /**
   * The canvas after the iterations that consumed `ds`, one operation per
   * element, each picked by its own draw; the result is a w x h buffer of
   * channel values.
   */
  function Cooked(w: nat, h: nat, s: seq<int>, ds: seq<Draws>, strength: real,
                  jpeg: Redraw, resample: Redraw): (r: seq<int>)
    requires |s| == w * h * 4 && AllBytes(s)
    requires AllFit(ds, w * h)
    requires KeepsShape(jpeg) && KeepsShape(resample)
    ensures |r| == w * h * 4 && AllBytes(r)
    decreases |ds|
  {
    if |ds| == 0 then s
    else
      var last := ds[|ds| - 1];
      assert DrawsFit(last, w * h);
      Applied(Pick(last.pick), w, h, Cooked(w, h, s, ds[..|ds| - 1], strength, jpeg, resample),
              last, strength, jpeg, resample)
  }

  /** Cooking without iterations leaves the freshly drawn image. */
  lemma CookedNothing(w: nat, h: nat, s: seq<int>, strength: real, jpeg: Redraw, resample: Redraw)
    requires |s| == w * h * 4 && AllBytes(s)
    requires KeepsShape(jpeg) && KeepsShape(resample)
    ensures Cooked(w, h, s, [], strength, jpeg, resample) == s
  {
  }

  /** Iterations compose: cooking with ds + es is cooking with es after ds. */
  lemma {:induction false} CookedSplit(w: nat, h: nat, s: seq<int>, ds: seq<Draws>, es: seq<Draws>,
                                       strength: real, jpeg: Redraw, resample: Redraw)
    requires |s| == w * h * 4 && AllBytes(s)
    requires AllFit(ds, w * h) && AllFit(es, w * h)
    requires KeepsShape(jpeg) && KeepsShape(resample)
    ensures AllFit(ds + es, w * h)
    ensures Cooked(w, h, s, ds + es, strength, jpeg, resample)
         == Cooked(w, h, Cooked(w, h, s, ds, strength, jpeg, resample), es, strength, jpeg, resample)
    decreases |es|
  {
    if |es| == 0 {
      assert ds + es == ds;
    } else {
      var es' := es[..|es| - 1];
      CookedSplit(w, h, s, ds, es', strength, jpeg, resample);
      assert (ds + es)[..|ds + es| - 1] == ds + es';
      assert (ds + es)[|ds + es| - 1] == es[|es| - 1];
    }
  }

  /** op_modulate (cook.js:191-198): saturation, then brightness, from two draws. */
  method OpModulate(c: Canvas, d: Draws, strength: real, ghost jpeg: Redraw, ghost resample: Redraw)
    requires c.Valid() && DrawsFit(d, c.width * c.height)
    requires KeepsShape(jpeg) && KeepsShape(resample)
    modifies c.data
    ensures c.Valid()
    ensures c.data[..] == Applied(Modulate, c.width, c.height, old(c.data[..]), d, strength, jpeg, resample)
  {
    ghost var s := c.data[..];
    var sat := Params.ModulateSaturation(d.first, strength);
    PixelCount(c.width, c.height);
    Adjust.AdjustSaturation(c.data, sat);
    Adjust.SaturationRewrites(s, sat);
    var swing := Params.ModulateBrightness(d.second, strength);
    Adjust.AdjustBrightness(c.data, swing);
    Adjust.BrightnessRewrites(Adjust.Saturated(s, sat), swing);
  }

  /** op_compress (cook.js:180-188), with the JPEG round trip as `jpeg`. */
  method OpCompress(c: Canvas, d: Draws, strength: real, jpeg: Redraw, ghost resample: Redraw)
    requires c.Valid() && DrawsFit(d, c.width * c.height)
    requires KeepsShape(jpeg) && KeepsShape(resample)
    modifies c.data
    ensures c.Valid()
    ensures c.data[..] == Applied(Compress, c.width, c.height, old(c.data[..]), d, strength, jpeg, resample)
  {
    var q := Params.JpegQuality(Params.CompressFactorAsWritten(d.first, strength));
    c.Put(jpeg(c.width, c.height, c.data[..], q));
  }

  /** op_contrast (cook.js:200-204). */
  method OpContrast(c: Canvas, d: Draws, strength: real, ghost jpeg: Redraw, ghost resample: Redraw)
    requires c.Valid() && DrawsFit(d, c.width * c.height)
    requires KeepsShape(jpeg) && KeepsShape(resample)
    modifies c.data
    ensures c.Valid()
    ensures c.data[..] == Applied(Contrast, c.width, c.height, old(c.data[..]), d, strength, jpeg, resample)
  {
    ghost var s := c.data[..];
    var value := Params.ContrastValue(d.first, strength);
    PixelCount(c.width, c.height);
    Adjust.AdjustContrast(c.data, value);
    Adjust.ContrastRewrites(s, value);
  }

  /** op_resize (cook.js:206-213), with resizeShuffle's two drawImage calls as `resample`. */
  method OpResize(c: Canvas, d: Draws, strength: real, ghost jpeg: Redraw, resample: Redraw)
    requires c.Valid() && DrawsFit(d, c.width * c.height)
    requires KeepsShape(jpeg) && KeepsShape(resample)
    modifies c.data
    ensures c.Valid()
    ensures c.data[..] == Applied(Resize, c.width, c.height, old(c.data[..]), d, strength, jpeg, resample)
  {
    var px := Params.ResizeWidth(d.first, c.width, strength);
    c.Put(resample(c.width, c.height, c.data[..], px as real));
  }

  /** op_edge (cook.js:215-222) on the canvas. */
  method OpEdge(c: Canvas, d: Draws, strength: real, ghost jpeg: Redraw, ghost resample: Redraw)
    requires c.Valid() && DrawsFit(d, c.width * c.height)
    requires KeepsShape(jpeg) && KeepsShape(resample)
    modifies c.data
    ensures c.Valid()
    ensures c.data[..] == Applied(Edge, c.width, c.height, old(c.data[..]), d, strength, jpeg, resample)
  {
    ghost var s := c.data[..];
    Convolution.OpEdge(c.data, c.width, c.height);
    Convolution.ConvolvedBytes(s, c.width, c.height, Convolution.EdgeKernel);
  }

  /** op_noise (cook.js:244-247). */
  method OpNoise(c: Canvas, d: Draws, strength: real, ghost jpeg: Redraw, ghost resample: Redraw)
    requires c.Valid() && DrawsFit(d, c.width * c.height)
    requires KeepsShape(jpeg) && KeepsShape(resample)
    modifies c.data
    ensures c.Valid()
    ensures c.data[..] == Applied(Noise, c.width, c.height, old(c.data[..]), d, strength, jpeg, resample)
  {
    ghost var s := c.data[..];
    var amount := Params.NoiseAmount(strength);
    PixelCount(c.width, c.height);
    Adjust.AddNoise(c.data, amount, d.perPixel);
    Adjust.NoiseRewrites(s, amount, d.perPixel);
  }

  /** op_normalize (cook.js:224-242) on the canvas. */
  method OpNormalize(c: Canvas, d: Draws, strength: real, ghost jpeg: Redraw, ghost resample: Redraw)
    requires c.Valid() && DrawsFit(d, c.width * c.height)
    requires KeepsShape(jpeg) && KeepsShape(resample)
    modifies c.data
    ensures c.Valid()
    ensures c.data[..] == Applied(Normalize, c.width, c.height, old(c.data[..]), d, strength, jpeg, resample)
  {
    ghost var s := c.data[..];
    PixelCount(c.width, c.height);
    Normalize.OpNormalize(c.data);
    Normalize.NormalizeRewrites(s);
  }

  /** One iteration of the loop of cook (cook.js:260-261): `await op(strength)`. */
  method Step(c: Canvas, op: Op, d: Draws, strength: real, jpeg: Redraw, resample: Redraw)
    requires c.Valid() && DrawsFit(d, c.width * c.height)
    requires KeepsShape(jpeg) && KeepsShape(resample)
    modifies c.data
    ensures c.Valid()
    ensures c.data[..] == Applied(op, c.width, c.height, old(c.data[..]), d, strength, jpeg, resample)
  {
    match op
    case Modulate => OpModulate(c, d, strength, jpeg, resample);
    case Compress => OpCompress(c, d, strength, jpeg, resample);
    case Contrast => OpContrast(c, d, strength, jpeg, resample);
    case Resize => OpResize(c, d, strength, jpeg, resample);
    case Edge => OpEdge(c, d, strength, jpeg, resample);
    case Noise => OpNoise(c, d, strength, jpeg, resample);
    case Normalize => OpNormalize(c, d, strength, jpeg, resample);
  }

  /**
   * The loop of cook (cook.js:259-262): `iterations` times, or not at all
   * when it is negative, pick an operation with the next draw and run it.
   */
  method RunIterations(c: Canvas, iterations: int, ds: seq<Draws>, strength: real,
                       jpeg: Redraw, resample: Redraw)
    requires c.Valid() && |ds| >= Runs(iterations) && AllFit(ds, c.width * c.height)
    requires KeepsShape(jpeg) && KeepsShape(resample)
    modifies c.data
    ensures c.Valid() && AllFit(ds[..Runs(iterations)], c.width * c.height)
    ensures c.data[..] == Cooked(c.width, c.height, old(c.data[..]), ds[..Runs(iterations)],
                                 strength, jpeg, resample)
  {
    ghost var start := c.data[..];
    var i := 0;
    PrefixFits(ds, 0, c.width * c.height);
    while i < iterations
      invariant 0 <= i <= Runs(iterations)
      invariant c.Valid() && AllFit(ds[..i], c.width * c.height)
      invariant c.data[..] == Cooked(c.width, c.height, start, ds[..i], strength, jpeg, resample)
    {
      Step(c, Pick(ds[i].pick), ds[i], strength, jpeg, resample);
      PrefixFits(ds, i + 1, c.width * c.height);
      assert ds[..i + 1][..i] == ds[..i] && ds[..i + 1][i] == ds[i];
      i := i + 1;
    }
    assert i == Runs(iterations);
  }

  /**
   * cook (cook.js:251-265): nothing happens before an image is loaded;
   * otherwise the canvas is reset to the fitted original (`drawn`, what
   * drawImage painted at that size) and exactly Runs(Iterations(..))
   * operations follow, the i-th picked and parametrised by ds[i].
   */
  method Cook(c: Canvas, loaded: bool, iterationsField: Parsed, strengthField: Parsed,
              imageWidth: nat, imageHeight: nat, drawn: seq<int>, ds: seq<Draws>,
              jpeg: Redraw, resample: Redraw)
    requires var size := FitSize(imageWidth, imageHeight);
             |drawn| == size.0 * size.1 * 4 && AllBytes(drawn)
             && |ds| >= Runs(Iterations(iterationsField))
             && AllFit(ds, size.0 * size.1)
    requires KeepsShape(jpeg) && KeepsShape(resample)
    modifies c
    ensures !loaded ==> c.data == old(c.data) && c.width == old(c.width) && c.height == old(c.height)
    ensures loaded ==> var size := FitSize(imageWidth, imageHeight);
            && c.Valid() && c.width == size.0 && c.height == size.1
            && AllFit(ds[..Runs(Iterations(iterationsField))], size.0 * size.1)
            && c.data[..] == Cooked(size.0, size.1, drawn, ds[..Runs(Iterations(iterationsField))],
                                    Strength(strengthField), jpeg, resample)
  {
    if !loaded {
      return;
    }
    var iterations := Iterations(iterationsField);
    var strength := Strength(strengthField);
    var size := FitSize(imageWidth, imageHeight);
    c.Reset(size.0, size.1, drawn);
    RunIterations(c, iterations, ds, strength, jpeg, resample);
  }
}
