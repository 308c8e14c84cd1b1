/**
 * How the operation wrappers of cook.js turn one Math.random() draw `r`
 * and the user's strength into the setting they hand to the pixel
 * routines (op_modulate, op_compress, op_contrast, op_resize, op_noise,
 * cook.js:180-247).
 */
module Params {
  import opened Numeric
  import Adjust
  import Raster

  // ---------------------------------------------------------------- modulate

  /** `sat` of op_modulate (cook.js:192-193), from the draw of randInt(100, 500). */
  function ModulateSaturation(r: real, strength: real): (sat: real)
    requires 0.0 <= r < 1.0
    ensures 0.0 <= strength <= 1.0 ==> 100.0 <= sat <= 500.0
  {
    var factor := RandInt(r, 100, 500);
    var above: real := (factor - 100) as real;
    assert 0.0 <= above <= 400.0;
    Scaled(above, strength);
    above * strength + 100.0
  }

  /** `brightSwing` of op_modulate (cook.js:196), from the draw of randInt(-50, 80). */
  function ModulateBrightness(r: real, strength: real): (swing: real)
    requires 0.0 <= r < 1.0
    ensures 0.0 <= strength <= 1.0 ==> -50.0 <= swing <= 80.0
  {
    var swing := RandInt(r, -50, 80);
    Scaled(swing as real, strength);
    swing as real * strength
  }

  /** Scaling by a strength in [0,1] moves a value towards 0 and keeps its sign. */
  lemma Scaled(a: real, s: real)
    ensures 0.0 <= s <= 1.0 && a >= 0.0 ==> 0.0 <= a * s <= a
    ensures 0.0 <= s <= 1.0 && a <= 0.0 ==> a <= a * s <= 0.0
  {
    if 0.0 <= s <= 1.0 {
      ProductSigns(a, s);
      ProductSigns(a, 1.0 - s);
      assert a * (1.0 - s) == a - a * s;
    }
  }

  lemma ProductSigns(a: real, b: real)
    requires b >= 0.0
    ensures a >= 0.0 ==> a * b >= 0.0
    ensures a <= 0.0 ==> a * b <= 0.0
  {
  }

  /** At full strength the whole of [100,500] is reachable as a saturation. */
  lemma ModulateFullRange(sat: int)
    requires 100 <= sat <= 500
    ensures var r := (sat - 100) as real / 401.0;
            0.0 <= r < 1.0 && ModulateSaturation(r, 1.0) == sat as real
  {
    RandIntReaches(100, 500, sat);
  }

  /** At strength 0 op_modulate asks for saturation 100 and brightness 0: both identities. */
  lemma ModulateAtZeroStrength(r1: real, r2: real, s: seq<int>)
    requires 0.0 <= r1 < 1.0 && 0.0 <= r2 < 1.0
    requires |s| % 4 == 0 && Raster.AllBytes(s)
    ensures ModulateSaturation(r1, 0.0) == 100.0 && ModulateBrightness(r2, 0.0) == 0.0
    ensures Adjust.Brightened(Adjust.Saturated(s, ModulateSaturation(r1, 0.0)), ModulateBrightness(r2, 0.0)) == s
  {
    Adjust.SaturationIdentity(s);
    Adjust.BrightnessIdentity(s);
  }

  // ---------------------------------------------------------------- compress

  /**
   * `factor` of op_compress as written (cook.js:181-183):
   * Math.max(1, Math.round(101 - rand * strength)) with rand = randInt(1, 100).
   */
  function CompressFactorAsWritten(r: real, strength: real): (f: int)
    requires 0.0 <= r < 1.0
    ensures f >= 1
    ensures 0.0 <= strength <= 1.0 ==> f <= 101
  {
    var rand := RandInt(r, 1, 100);
    var x := Round(101.0 - rand as real * strength);
    if x < 1 then 1 else x
  }

  /**
   * The commented range "1–100" does not hold: with rand * strength <= 0.5
   * the rounding yields 101, for instance rand = 1 at strength 0.01.
   */
  lemma CompressFactorReaches101()
    ensures CompressFactorAsWritten(0.0, 0.01) == 101
    ensures JpegQuality(CompressFactorAsWritten(0.0, 0.01)) > 1.0
  {
    assert RandInt(0.0, 1, 100) == 1;
    assert (101.0 - 0.01 + 0.5).Floor == 101;
  }

  /** The factor with the commented range 1–100 enforced. */
  function CompressFactor(r: real, strength: real): (f: int)
    requires 0.0 <= r < 1.0
    ensures 1 <= f <= 100
  {
    var x := CompressFactorAsWritten(r, strength);
    if x > 100 then 100 else x
  }

  /** The correction only touches the out-of-range results. */
  lemma CompressFactorAgrees(r: real, strength: real)
    requires 0.0 <= r < 1.0
    ensures CompressFactorAsWritten(r, strength) <= 100 ==> CompressFactor(r, strength) == CompressFactorAsWritten(r, strength)
    ensures CompressFactorAsWritten(r, strength) > 100 ==> CompressFactor(r, strength) == 100
  {
  }

  /** At strength 1 every draw gives 101 - rand, inside the commented range. */
  lemma CompressFullStrength(r: real)
    requires 0.0 <= r < 1.0
    ensures CompressFactorAsWritten(r, 1.0) == 101 - RandInt(r, 1, 100)
    ensures CompressFactor(r, 1.0) == CompressFactorAsWritten(r, 1.0)
  {
    var rand := RandInt(r, 1, 100);
    assert (101.0 - rand as real + 0.5).Floor == 101 - rand;
  }

  /** `jpegQ` of op_compress (cook.js:186): Math.max(0.01, (factor / 100)^2). */
  function JpegQuality(factor: int): (q: real)
    ensures q >= 0.01
    ensures 1 <= factor <= 100 ==> q <= 1.0
  {
    var x := factor as real / 100.0;
    SquareMonotone(x, 1.0);
    var sq := Square(x);
    if sq < 0.01 then 0.01 else sq
  }

  /** Math.pow(x, 2). */
  function Square(x: real): real
  {
    x * x
  }

  lemma SquareMonotone(x: real, y: real)
    ensures 0.0 <= x <= y ==> Square(x) <= Square(y)
  {
    if 0.0 <= x <= y {
      ProductSigns(y - x, x);
      ProductSigns(y - x, y);
      assert (y - x) * x == y * x - x * x;
      assert (y - x) * y == y * y - x * y;
    }
  }

  /** Larger factors never give a lower JPEG quality. */
  lemma JpegQualityMonotone(f: int, g: int)
    requires 0 <= f <= g
    ensures JpegQuality(f) <= JpegQuality(g)
  {
    SquareMonotone(f as real / 100.0, g as real / 100.0);
  }

  // ---------------------------------------------------------------- contrast

  /** `c` of op_contrast (cook.js:201-202), from the draw of randInt(10, 200). */
  function ContrastValue(r: real, strength: real): (c: real)
    requires 0.0 <= r < 1.0
    ensures 0.0 <= strength <= 1.0 ==> 0.0 <= c <= 200.0
  {
    var val := RandInt(r, 10, 200);
    Scaled(val as real, strength);
    val as real * strength
  }

  /**
   * In that range the factor of adjustContrast is finite and at least 1,
   * so op_contrast never lowers contrast.
   */
  lemma ContrastValueRaises(r: real, strength: real)
    requires 0.0 <= r < 1.0 && 0.0 <= strength <= 1.0
    ensures ContrastValue(r, strength) != 259.0
    ensures Adjust.ContrastFactor(ContrastValue(r, strength)) >= 1.0
  {
    var c := ContrastValue(r, strength);
    var num, den := 259.0 * (c + 255.0), 255.0 * (259.0 - c);
    assert num >= den > 0.0;
    QuotientAtLeastOne(num, den);
  }

  lemma QuotientAtLeastOne(x: real, y: real)
    requires x >= y > 0.0
    ensures x / y >= 1.0
  {
    var q := x / y;
    assert q * y == x;
    Adjust.NonPositiveProduct(q - 1.0, y);
  }

  // ------------------------------------------------------------------ resize

  /**
   * `px` of op_resize (cook.js:207-211), the width of the temporary canvas,
   * from the draw of randInt(5, 95) and the canvas width.
   */
  function ResizeWidth(r: real, width: nat, strength: real): (px: int)
    requires 0.0 <= r < 1.0
    ensures px >= 1
    ensures 0.0 <= strength <= 1.0 && width >= 1 ==> px <= width
  {
    var rand := RandInt(r, 5, 95);
    var w := width as real;
    var x := (rand as real / 100.0 * w - w) * strength + w;
    ResizeBelowWidth(rand, w, strength);
    if x.Floor < 1 then 1 else x.Floor
  }

  lemma ResizeBelowWidth(rand: int, w: real, strength: real)
    requires 5 <= rand <= 95 && w >= 0.0
    ensures 0.0 <= strength <= 1.0 ==> (rand as real / 100.0 * w - w) * strength + w <= w
  {
    var d := rand as real / 100.0 * w - w;
    assert d <= 0.0;
    if strength > 0.0 {
      Adjust.NonPositiveProduct(d, strength);
    }
  }

  /**
   * At full strength the temporary width is rand% of the canvas width,
   * rounded down, and at least 1.
   */
  lemma ResizeFullStrength(r: real, width: nat)
    requires 0.0 <= r < 1.0
    ensures var q := RandInt(r, 5, 95) * width / 100;
            ResizeWidth(r, width, 1.0) == if q < 1 then 1 else q
  {
    var rand := RandInt(r, 5, 95);
    var x := rand as real / 100.0 * width as real;
    assert (rand * width) as real / 100.0 == x;
    assert x.Floor == rand * width / 100;
  }

  /**
   * `temp.height` of resizeShuffle (cook.js:150): (factor / width) * height,
   * truncated by the canvas's unsigned-long attribute. With width 0 the
   * quotient is infinite or NaN, which the attribute also turns into 0.
   */
  function ResizeHeight(px: int, width: nat, height: nat): (th: int)
    requires px >= 1
    ensures th >= 0
    ensures width > 0 ==> th * width <= px * height < (th + 1) * width
    ensures width > 0 ==> (th == 0 <==> px * height < width)
  {
    if width == 0 then 0
    else
      var n := px * height;
      DivModUnique(n, width, n / width, n % width);
      if n < width then DivModUnique(n, width, 0, n); n / width
      else n / width
  }

  // ------------------------------------------------------------------- noise

  /** `amt` of op_noise (cook.js:245): Math.round(60 * strength). */
  function NoiseAmount(strength: real): (amt: int)
    ensures 0.0 <= strength <= 1.0 ==> 0 <= amt <= 60
  {
    Round(60.0 * strength)
  }
}
