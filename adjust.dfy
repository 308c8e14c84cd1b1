/**
 * The in-place per-pixel transforms of cook.js (adjustContrast,
 * adjustSaturation, adjustBrightness, addNoise). Each walks the channel
 * array four at a time, rewrites R, G and B through `clamp` and the
 * Uint8ClampedArray store, and leaves alpha alone.
 */
module Adjust {
  import opened Numeric
  import opened Raster

  /** Facts about the four channels of the pixel starting at `i`. */
  lemma PixelChannels(i: int, n: int)
    requires 0 <= i < n && i % 4 == 0 && n % 4 == 0
    ensures i + 4 <= n && (i + 4) % 4 == 0
    ensures !IsAlpha(i) && !IsAlpha(i + 1) && !IsAlpha(i + 2) && IsAlpha(i + 3)
    ensures (i + 1) / 4 == i / 4 && (i + 2) / 4 == i / 4 && (i + 3) / 4 == i / 4
  {
  }

  /** The first channel index of the pixel that channel `i` belongs to. */
  function PixelBase(i: nat): nat
  {
    i - i % 4
  }

  /**
   * Writing the three colour channels of the pixel at `i` moves the
   * boundary between the rewritten prefix and the untouched suffix by
   * one pixel.
   */
  lemma PixelStep(before: seq<int>, after: seq<int>, src: seq<int>, want: seq<int>, i: nat)
    requires |before| == |src| == |want| && i + 4 <= |src|
    requires before[..i] == want[..i] && before[i..] == src[i..]
    requires want[i + 3] == src[i + 3]
    requires after == before[i := want[i]][i + 1 := want[i + 1]][i + 2 := want[i + 2]]
    ensures after[..i + 4] == want[..i + 4] && after[i + 4..] == src[i + 4..]
  {
    assert before[i + 3] == src[i + 3] by { assert before[i..][3] == src[i..][3]; }
    forall j | 0 <= j < i + 4
      ensures after[j] == want[j]
    {
      if j < i {
        assert before[..i][j] == want[..i][j];
      }
    }
    forall j | i + 4 <= j < |src|
      ensures after[j] == src[j]
    {
      assert before[i..][j - i] == src[i..][j - i];
    }
  }

  /** The channels of the pixel at `i` in a buffer whose suffix from `i` is untouched. */
  lemma Untouched(d: seq<int>, src: seq<int>, i: nat)
    requires |d| == |src| && i + 3 <= |src| && d[i..] == src[i..]
    ensures d[i] == src[i] && d[i + 1] == src[i + 1] && d[i + 2] == src[i + 2]
  {
    assert d[i..][0] == src[i..][0] && d[i..][1] == src[i..][1] && d[i..][2] == src[i..][2];
  }

  // ------------------------------------------------- one pass over the pixels

  /**
   * How the four transforms compute a new colour channel: from the pixel's
   * number (its index divided by 4), its R, G and B and the channel's own
   * value, already stored (clamped and rounded) as a channel value.
   */
  type ChannelRule = (nat, int, int, int, int) -> int

  /** The buffer after every colour channel has been rewritten by `f`. */
  function Recoloured(s: seq<int>, f: ChannelRule): seq<int>
    requires |s| % 4 == 0
  {
    seq(|s|, i requires 0 <= i < |s| =>
      if IsAlpha(i) then s[i]
      else
        var b := PixelBase(i);
        f(i / 4, s[b], s[b + 1], s[b + 2], s[i]))
  }

  /** The four channels of the pixel starting at `b` after one pass of `f`. */
  lemma RecolouredPixel(s: seq<int>, f: ChannelRule, b: nat)
    requires |s| % 4 == 0 && b % 4 == 0 && b < |s|
    ensures b + 4 <= |s|
    ensures var r := Recoloured(s, f);
            var k := b / 4;
            r[b] == f(k, s[b], s[b + 1], s[b + 2], s[b]) &&
            r[b + 1] == f(k, s[b], s[b + 1], s[b + 2], s[b + 1]) &&
            r[b + 2] == f(k, s[b], s[b + 1], s[b + 2], s[b + 2]) &&
            r[b + 3] == s[b + 3]
  {
    PixelChannels(b, |s|);
    assert PixelBase(b) == b && PixelBase(b + 1) == b && PixelBase(b + 2) == b;
  }

  /** A pass whose rule yields channel values keeps length, alpha and the channel range. */
  lemma RecolouredRewrites(s: seq<int>, f: ChannelRule)
    requires |s| % 4 == 0
    requires forall k, r, g, b, v :: 0 <= f(k, r, g, b, v) <= 255
    ensures Rewrites(s, Recoloured(s, f))
  {
  }

  /**
   * The loop shared by adjustContrast (cook.js:92-96), adjustSaturation
   * (cook.js:106-113), adjustBrightness (cook.js:123-127), addNoise
   * (cook.js:136-141) and the second pass of op_normalize (cook.js:236-240):
   * for pixel k read R, G and B, then store the three new colour channels;
   * alpha is never written.
   */
  method RecolourPixels(data: array<int>, f: ChannelRule)
    requires data.Length % 4 == 0
    modifies data
    ensures data[..] == Recoloured(old(data[..]), f)
  {
    ghost var src := data[..];
    ghost var want := Recoloured(src, f);
    var i := 0;
    var k := 0;
    while i < data.Length
      invariant 0 <= i && i == 4 * k
      invariant i <= data.Length
      invariant data[..i] == want[..i] && data[i..] == src[i..]
    {
      RecolouredPixel(src, f, i);
      Untouched(data[..], src, i);
      ghost var before := data[..];
      var r, g, b := data[i], data[i + 1], data[i + 2];
      data[i] := f(k, r, g, b, r);
      data[i + 1] := f(k, r, g, b, g);
      data[i + 2] := f(k, r, g, b, b);
      PixelStep(before, data[..], src, want, i);
      i, k := i + 4, k + 1;
    }
    assert data[..] == data[..i];
  }

  // ---------------------------------------------------------------- contrast

  /** The factor of adjustContrast (cook.js:91), finite away from 259. */
  function ContrastFactor(value: real): real
    requires value != 259.0
  {
    (259.0 * (value + 255.0)) / (255.0 * (259.0 - value))
  }

  /**
   * The stored value of one colour channel under adjustContrast(value).
   * At value == 259 the factor is +Infinity in JavaScript: channels above
   * 128 become 255, the rest 0 (Infinity * 0 is NaN at 128, and NaN is
   * stored as 0).
   */
  function ContrastChannel(value: real, v: int): int
  {
    if value == 259.0 then (if v > 128 then 255 else 0)
    else ScaledStore(ContrastFactor(value), v)
  }

  /** `clamp(factor * (v - 128) + 128)` stored into a channel. */
  function ScaledStore(factor: real, v: int): int
  {
    ToByte(Clamp(factor * (v - 128) as real + 128.0))
  }

  function ContrastRule(value: real): ChannelRule
  {
    (k: nat, r: int, g: int, b: int, v: int) => ContrastChannel(value, v)
  }

  function Contrasted(s: seq<int>, value: real): seq<int>
    requires |s| % 4 == 0
  {
    Recoloured(s, ContrastRule(value))
  }

  /** adjustContrast (cook.js:86-98) on the canvas's channel array. */
  method AdjustContrast(data: array<int>, value: real)
    requires data.Length % 4 == 0
    modifies data
    ensures data[..] == Contrasted(old(data[..]), value)
  {
    RecolourPixels(data, ContrastRule(value));
  }

  /** adjustContrast keeps the buffer length, alpha and the channel range. */
  lemma ContrastRewrites(s: seq<int>, value: real)
    requires |s| % 4 == 0
    ensures Rewrites(s, Contrasted(s, value))
  {
    RecolouredRewrites(s, ContrastRule(value));
  }

  /** Each colour channel is transformed on its own, independent of the others. */
  lemma ContrastPerChannel(s: seq<int>, value: real, i: nat)
    requires |s| % 4 == 0 && i < |s| && !IsAlpha(i)
    ensures Contrasted(s, value)[i] == ContrastChannel(value, s[i])
  {
  }

  /** 128 is the pivot: it is kept for every value except the infinite factor. */
  lemma ContrastPivot(value: real)
    ensures value != 259.0 ==> ContrastChannel(value, 128) == 128
    ensures value == 259.0 ==> ContrastChannel(value, 128) == 0
  {
    if value != 259.0 {
      ToByteOfByte(128);
    }
  }

  /** A buffer whose colour channels are all 128 is a fixed point of adjustContrast. */
  lemma ContrastKeepsMidGray(s: seq<int>, value: real)
    requires |s| % 4 == 0 && value != 259.0
    requires forall i :: 0 <= i < |s| && !IsAlpha(i) ==> s[i] == 128
    ensures Contrasted(s, value) == s
  {
    ContrastPivot(value);
  }

  /** adjustContrast(0) has factor 1 and so changes no channel value. */
  lemma ContrastZeroIdentity(s: seq<int>)
    requires |s| % 4 == 0 && AllBytes(s)
    ensures Contrasted(s, 0.0) == s
  {
    assert ContrastFactor(0.0) == 1.0;
    forall i | 0 <= i < |s| && !IsAlpha(i)
      ensures Contrasted(s, 0.0)[i] == s[i]
    {
      ToByteOfByte(s[i]);
    }
  }

  /** For value in (-255, 259) the factor is positive, so the map is monotone on channels. */
  lemma ContrastMonotone(value: real, u: int, v: int)
    requires -255.0 < value < 259.0 && u <= v
    ensures ContrastChannel(value, u) <= ContrastChannel(value, v)
  {
    FactorPositive(value);
    ScaledStoreMonotone(ContrastFactor(value), u, v);
  }

  lemma FactorPositive(value: real)
    requires -255.0 < value < 259.0
    ensures ContrastFactor(value) > 0.0
  {
    PositiveQuotient(259.0 * (value + 255.0), 255.0 * (259.0 - value));
  }

  /** Scaling the distance from 128 by a positive factor, then storing, keeps the order. */
  lemma ScaledStoreMonotone(factor: real, u: int, v: int)
    requires factor > 0.0 && u <= v
    ensures ScaledStore(factor, u) <= ScaledStore(factor, v)
  {
    var x, y := factor * (u - 128) as real + 128.0, factor * (v - 128) as real + 128.0;
    assert y - x == factor * (v - u) as real;
    ClampMonotone(x, y);
    ToByteMonotone(Clamp(x), Clamp(y));
  }

  lemma ClampMonotone(x: real, y: real)
    requires x <= y
    ensures Clamp(x) <= Clamp(y)
  {
  }

  lemma PositiveQuotient(x: real, y: real)
    requires x > 0.0 && y > 0.0
    ensures x / y > 0.0
  {
    var q := x / y;
    assert q * y == x;
    NonPositiveProduct(q, y);
  }

  lemma NonPositiveProduct(q: real, y: real)
    requires y > 0.0
    ensures q <= 0.0 ==> q * y <= 0.0
  {
  }

  /** The Uint8ClampedArray store is monotone. */
  lemma ToByteMonotone(x: real, y: real)
    requires x <= y
    ensures ToByte(x) <= ToByte(y)
  {
    if 0.0 < x && y < 255.0 {
      var fx, fy := x.Floor, y.Floor;
      if fx < fy {
        assert ToByte(x) <= fx + 1 <= fy <= ToByte(y);
      }
    }
  }

  // -------------------------------------------------------------- saturation

  /** The luminance-weighted gray of adjustSaturation (weights sum to 0.9999). */
  function Gray(r: int, g: int, b: int): real
  {
    0.2989 * r as real + 0.5870 * g as real + 0.1140 * b as real
  }

  /** One colour channel blended towards the pixel's gray with ratio p = percent / 100. */
  function SaturationChannel(p: real, gray: real, v: int): int
  {
    ToByte(Clamp(gray + (v as real - gray) * p))
  }

  function SaturationRule(percent: real): ChannelRule
  {
    (k: nat, r: int, g: int, b: int, v: int) => SaturationChannel(percent / 100.0, Gray(r, g, b), v)
  }

  function Saturated(s: seq<int>, percent: real): seq<int>
    requires |s| % 4 == 0
  {
    Recoloured(s, SaturationRule(percent))
  }

  /** adjustSaturation (cook.js:101-115) on the canvas's channel array. */
  method AdjustSaturation(data: array<int>, percent: real)
    requires data.Length % 4 == 0
    modifies data
    ensures data[..] == Saturated(old(data[..]), percent)
  {
    RecolourPixels(data, SaturationRule(percent));
  }

  /** adjustSaturation keeps the buffer length, alpha and the channel range. */
  lemma SaturationRewrites(s: seq<int>, percent: real)
    requires |s| % 4 == 0
    ensures Rewrites(s, Saturated(s, percent))
  {
    RecolouredRewrites(s, SaturationRule(percent));
  }

  /** The gray is computed once per pixel, from the pixel's original R, G and B. */
  lemma SaturatedPixel(s: seq<int>, percent: real, b: nat)
    requires |s| % 4 == 0 && b % 4 == 0 && b < |s|
    ensures b + 4 <= |s|
    ensures var g := Gray(s[b], s[b + 1], s[b + 2]);
            var r := Saturated(s, percent);
            r[b] == SaturationChannel(percent / 100.0, g, s[b]) &&
            r[b + 1] == SaturationChannel(percent / 100.0, g, s[b + 1]) &&
            r[b + 2] == SaturationChannel(percent / 100.0, g, s[b + 2]) &&
            r[b + 3] == s[b + 3]
  {
    RecolouredPixel(s, SaturationRule(percent), b);
  }

  /** adjustSaturation(100) blends with ratio 1 and so changes nothing. */
  lemma SaturationIdentity(s: seq<int>)
    requires |s| % 4 == 0 && AllBytes(s)
    ensures Saturated(s, 100.0) == s
  {
    forall i | 0 <= i < |s| && !IsAlpha(i)
      ensures Saturated(s, 100.0)[i] == s[i]
    {
      ToByteOfByte(s[i]);
    }
  }

  /** With ratio 0 a channel becomes the stored gray, whatever its own value. */
  lemma SaturationChannelZero(gray: real, v: int)
    ensures SaturationChannel(0.0, gray, v) == ToByte(Clamp(gray))
  {
  }

  /** adjustSaturation(0) turns every pixel gray: its three colour channels agree. */
  lemma SaturationZeroIsGray(s: seq<int>, b: nat)
    requires |s| % 4 == 0 && b % 4 == 0 && b < |s|
    ensures b + 3 < |s|
    ensures var r := Saturated(s, 0.0);
            var g := ToByte(Clamp(Gray(s[b], s[b + 1], s[b + 2])));
            r[b] == g && r[b + 1] == g && r[b + 2] == g
  {
    SaturatedPixel(s, 0.0, b);
    var g := Gray(s[b], s[b + 1], s[b + 2]);
    SaturationChannelZero(g, s[b]);
    SaturationChannelZero(g, s[b + 1]);
    SaturationChannelZero(g, s[b + 2]);
  }

  // -------------------------------------------------------------- brightness

  function BrightnessRule(value: real): ChannelRule
  {
    (k: nat, r: int, g: int, b: int, v: int) => ToByte(Clamp(v as real + value))
  }

  function Brightened(s: seq<int>, value: real): seq<int>
    requires |s| % 4 == 0
  {
    Recoloured(s, BrightnessRule(value))
  }

  /** adjustBrightness (cook.js:118-129) on the canvas's channel array. */
  method AdjustBrightness(data: array<int>, value: real)
    requires data.Length % 4 == 0
    modifies data
    ensures data[..] == Brightened(old(data[..]), value)
  {
    RecolourPixels(data, BrightnessRule(value));
  }

  /** adjustBrightness keeps the buffer length, alpha and the channel range. */
  lemma BrightnessRewrites(s: seq<int>, value: real)
    requires |s| % 4 == 0
    ensures Rewrites(s, Brightened(s, value))
  {
    RecolouredRewrites(s, BrightnessRule(value));
  }

  /** adjustBrightness(0) changes nothing. */
  lemma BrightnessIdentity(s: seq<int>)
    requires |s| % 4 == 0 && AllBytes(s)
    ensures Brightened(s, 0.0) == s
  {
    forall i | 0 <= i < |s| && !IsAlpha(i)
      ensures Brightened(s, 0.0)[i] == s[i]
    {
      ToByteOfByte(s[i]);
    }
  }

  /** An integer offset n moves every colour channel by n, clamped into [0,255]. */
  lemma BrightnessShift(s: seq<int>, n: int, i: nat)
    requires |s| % 4 == 0 && AllBytes(s) && i < |s| && !IsAlpha(i)
    ensures Brightened(s, n as real)[i] == Clip(s[i] + n)
  {
    ShiftedChannel(s[i], n);
  }

  /** `clamp(v + n)` stored into a channel, for an integer offset n. */
  function Shifted(v: int, n: int): int
  {
    ToByte(Clamp((v + n) as real))
  }

  /** A channel value plus an integer offset: the clamp of the sum, exactly. */
  lemma ShiftedChannel(v: int, n: int)
    requires 0 <= v <= 255
    ensures var r := Shifted(v, n);
            r == Clip(v + n) &&
            (n >= 0 ==> v <= r <= v + n) && (n <= 0 ==> v + n <= r <= v)
  {
    if 0 <= v + n <= 255 {
      ToByteOfByte(v + n);
    }
  }

  // ------------------------------------------------------------------- noise

  /** One Math.random() value per pixel, as addNoise draws them. */
  predicate NoiseDraws(rs: seq<real>, pixels: nat)
  {
    |rs| == pixels && forall k :: 0 <= k < |rs| ==> 0.0 <= rs[k] < 1.0
  }

  /** The offset addNoise draws for pixel `k`: randInt(-amount, amount). */
  function NoiseOffset(rs: seq<real>, k: nat, amount: int): int
    requires k < |rs| && 0.0 <= rs[k] < 1.0
  {
    RandInt(rs[k], -amount, amount)
  }

  function Noised(s: seq<int>, amount: int, rs: seq<real>): seq<int>
    requires |s| % 4 == 0 && NoiseDraws(rs, |s| / 4)
  {
    seq(|s|, i requires 0 <= i < |s| =>
      if IsAlpha(i) then s[i]
      else Shifted(s[i], NoiseOffset(rs, i / 4, amount)))
  }

  /** addNoise keeps the buffer length, alpha and the channel range. */
  lemma NoiseRewrites(s: seq<int>, amount: int, rs: seq<real>)
    requires |s| % 4 == 0 && NoiseDraws(rs, |s| / 4)
    ensures Rewrites(s, Noised(s, amount, rs))
  {
  }

  /** The four channels of the pixel starting at `b` after addNoise. */
  lemma NoisedPixel(s: seq<int>, amount: int, rs: seq<real>, b: nat)
    requires |s| % 4 == 0 && NoiseDraws(rs, |s| / 4) && b % 4 == 0 && b < |s|
    ensures b + 4 <= |s| && b / 4 < |rs|
    ensures var n := NoiseOffset(rs, b / 4, amount);
            var r := Noised(s, amount, rs);
            r[b] == Shifted(s[b], n) && r[b + 1] == Shifted(s[b + 1], n) &&
            r[b + 2] == Shifted(s[b + 2], n) && r[b + 3] == s[b + 3]
  {
    PixelChannels(b, |s|);
  }

  /**
   * addNoise moves the three colour channels of a pixel by one common
   * offset in [-amount, amount], clamped to [0,255].
   */
  lemma NoiseSharedOffset(s: seq<int>, amount: nat, rs: seq<real>, b: nat)
    requires |s| % 4 == 0 && AllBytes(s) && NoiseDraws(rs, |s| / 4) && b % 4 == 0 && b < |s|
    ensures b + 4 <= |s|
    ensures var r := Noised(s, amount, rs);
            var n := NoiseOffset(rs, b / 4, amount);
            -(amount as int) <= n <= amount &&
            r[b] == Clip(s[b] + n) && r[b + 1] == Clip(s[b + 1] + n) &&
            r[b + 2] == Clip(s[b + 2] + n) && r[b + 3] == s[b + 3]
  {
    NoisedPixel(s, amount, rs, b);
    var n := NoiseOffset(rs, b / 4, amount);
    ShiftedChannel(s[b], n);
    ShiftedChannel(s[b + 1], n);
    ShiftedChannel(s[b + 2], n);
  }

  /** So no colour channel moves by more than `amount`. */
  lemma NoiseBoundedChange(s: seq<int>, amount: nat, rs: seq<real>, i: nat)
    requires |s| % 4 == 0 && AllBytes(s) && NoiseDraws(rs, |s| / 4) && i < |s|
    ensures -(amount as int) <= Noised(s, amount, rs)[i] - s[i] <= amount
  {
    if !IsAlpha(i) {
      NoisedPixel(s, amount, rs, PixelBase(i));
      ShiftedChannel(s[i], NoiseOffset(rs, i / 4, amount));
    }
  }

  /** addNoise with amount 0 draws only zero offsets and changes nothing. */
  lemma NoiseZeroIdentity(s: seq<int>, rs: seq<real>)
    requires |s| % 4 == 0 && AllBytes(s) && NoiseDraws(rs, |s| / 4)
    ensures Noised(s, 0, rs) == s
  {
    forall i | 0 <= i < |s| && !IsAlpha(i)
      ensures Noised(s, 0, rs)[i] == s[i]
    {
      ShiftedChannel(s[i], 0);
    }
  }

  /**
   * The rule addNoise applies with draws `rs`. It only looks up draws that
   * exist; addNoise supplies one per pixel, so the fallback never applies.
   */
  function NoiseRule(amount: int, rs: seq<real>): ChannelRule
  {
    (k: nat, r: int, g: int, b: int, v: int) =>
      if k < |rs| && 0.0 <= rs[k] < 1.0 then Shifted(v, NoiseOffset(rs, k, amount)) else v
  }

  lemma NoiseByRule(s: seq<int>, amount: int, rs: seq<real>)
    requires |s| % 4 == 0 && NoiseDraws(rs, |s| / 4)
    ensures Recoloured(s, NoiseRule(amount, rs)) == Noised(s, amount, rs)
  {
    forall i | 0 <= i < |s| && !IsAlpha(i)
      ensures Recoloured(s, NoiseRule(amount, rs))[i] == Noised(s, amount, rs)[i]
    {
      assert i / 4 < |rs|;
    }
  }

  /**
   * addNoise (cook.js:132-143) on the canvas's channel array, `rs[k]` being
   * the Math.random() value drawn for pixel k.
   */
  method AddNoise(data: array<int>, amount: int, rs: seq<real>)
    requires data.Length % 4 == 0 && NoiseDraws(rs, data.Length / 4)
    modifies data
    ensures data[..] == Noised(old(data[..]), amount, rs)
  {
    NoiseByRule(data[..], amount, rs);
    RecolourPixels(data, NoiseRule(amount, rs));
  }
}
