/**
 * `op_normalize` of cook.js (cook.js:224-242): one scan for the smallest
 * and largest pixel luminance, then a pass that stretches every colour
 * channel linearly so that the minimum luminance maps to 0 and the maximum
 * to 255.
 */
module Normalize {
  import opened Numeric
  import opened Raster
  import opened Adjust

  /** The Rec. 709 luminance op_normalize uses; the weights sum to 1. */
  function Luma(r: int, g: int, b: int): real
  {
    0.2126 * r as real + 0.7152 * g as real + 0.0722 * b as real
  }

  /** The luminance of pixel k. */
  function LumaOf(s: seq<int>, k: nat): real
    requires |s| % 4 == 0 && k < |s| / 4
  {
    Luma(s[4 * k], s[4 * k + 1], s[4 * k + 2])
  }

  /** `min` after the scan has seen pixels 0 .. n-1; it starts at 255. */
  function MinLuma(s: seq<int>, n: nat): real
    requires |s| % 4 == 0 && n <= |s| / 4
  {
    if n == 0 then 255.0
    else
      var m, l := MinLuma(s, n - 1), LumaOf(s, n - 1);
      if l < m then l else m
  }

  /** `max` after the scan has seen pixels 0 .. n-1; it starts at 0. */
  function MaxLuma(s: seq<int>, n: nat): real
    requires |s| % 4 == 0 && n <= |s| / 4
  {
    if n == 0 then 0.0
    else
      var m, l := MaxLuma(s, n - 1), LumaOf(s, n - 1);
      if l > m then l else m
  }

  /** `max - min || 1`: the spread, or 1 when it is 0. */
  function Range(lo: real, hi: real): (r: real)
    ensures r != 0.0
    ensures hi == lo ==> r == 1.0
    ensures hi != lo ==> r == hi - lo
  {
    if hi - lo == 0.0 then 1.0 else hi - lo
  }

  /** A colour channel after the second pass: clamp((v - min) / range * 255), stored. */
  function Stretch(lo: real, range: real, v: int): int
    requires range != 0.0
  {
    ToByte(Clamp((v as real - lo) / range * 255.0))
  }

  function NormalizeRule(lo: real, range: real): ChannelRule
    requires range != 0.0
  {
    (k: nat, r: int, g: int, b: int, v: int) => Stretch(lo, range, v)
  }

  /** The buffer after op_normalize. */
  function Normalized(s: seq<int>): seq<int>
    requires |s| % 4 == 0
  {
    var n := |s| / 4;
    Recoloured(s, NormalizeRule(MinLuma(s, n), Range(MinLuma(s, n), MaxLuma(s, n))))
  }

  /** The first loop of op_normalize (cook.js:229-234). */
  method LumaRange(data: array<int>) returns (lo: real, hi: real)
    requires data.Length % 4 == 0
    ensures lo == MinLuma(data[..], data.Length / 4)
    ensures hi == MaxLuma(data[..], data.Length / 4)
  {
    lo, hi := 255.0, 0.0;
    var i := 0;
    ghost var k := 0;
    while i < data.Length
      invariant 0 <= i && i == 4 * k && i <= data.Length
      invariant lo == MinLuma(data[..], k) && hi == MaxLuma(data[..], k)
    {
      var l := Luma(data[i], data[i + 1], data[i + 2]);
      assert l == LumaOf(data[..], k);
      if l < lo {
        lo := l;
      }
      if l > hi {
        hi := l;
      }
      i, k := i + 4, k + 1;
    }
  }

  /** op_normalize (cook.js:224-242): the scan, the fallback, the rewrite. */
  method OpNormalize(data: array<int>)
    requires data.Length % 4 == 0
    modifies data
    ensures data[..] == Normalized(old(data[..]))
  {
    var lo, hi := LumaRange(data);
    var range := Range(lo, hi);
    RecolourPixels(data, NormalizeRule(lo, range));
  }

  // -------------------------------------------------------------- properties

  /** Luminance of channel values is a value in [0,255]. */
  lemma LumaOfBytes(s: seq<int>, k: nat)
    requires |s| % 4 == 0 && k < |s| / 4 && AllBytes(s)
    ensures 0.0 <= LumaOf(s, k) <= 255.0
  {
    assert 0 <= s[4 * k] <= 255 && 0 <= s[4 * k + 1] <= 255 && 0 <= s[4 * k + 2] <= 255;
  }

  /** A gray pixel (R = G = B = v) has luminance v. */
  lemma LumaOfGray(v: int)
    ensures Luma(v, v, v) == v as real
  {
  }

  /** `min` is at most 255 and at most the luminance of every pixel scanned. */
  lemma {:induction false} MinLumaIsLower(s: seq<int>, n: nat, k: nat)
    requires |s| % 4 == 0 && n <= |s| / 4 && k < n
    ensures MinLuma(s, n) <= 255.0 && MinLuma(s, n) <= LumaOf(s, k)
  {
    if k < n - 1 {
      MinLumaIsLower(s, n - 1, k);
    } else if n > 1 {
      MinLumaIsLower(s, n - 1, 0);
    }
  }

  /** `max` is at least 0 and at least the luminance of every pixel scanned. */
  lemma {:induction false} MaxLumaIsUpper(s: seq<int>, n: nat, k: nat)
    requires |s| % 4 == 0 && n <= |s| / 4 && k < n
    ensures MaxLuma(s, n) >= 0.0 && MaxLuma(s, n) >= LumaOf(s, k)
  {
    if k < n - 1 {
      MaxLumaIsUpper(s, n - 1, k);
    } else if n > 1 {
      MaxLumaIsUpper(s, n - 1, 0);
    }
  }

  /** On channel values, `min` is the luminance of some scanned pixel. */
  lemma {:induction false} MinLumaAttained(s: seq<int>, n: nat) returns (k: nat)
    requires |s| % 4 == 0 && 0 < n <= |s| / 4 && AllBytes(s)
    ensures k < n && MinLuma(s, n) == LumaOf(s, k)
  {
    LumaOfBytes(s, n - 1);
    if n == 1 {
      k := 0;
    } else {
      k := MinLumaAttained(s, n - 1);
      if LumaOf(s, n - 1) < MinLuma(s, n - 1) {
        k := n - 1;
      }
    }
  }

  /** On channel values, `max` is the luminance of some scanned pixel. */
  lemma {:induction false} MaxLumaAttained(s: seq<int>, n: nat) returns (k: nat)
    requires |s| % 4 == 0 && 0 < n <= |s| / 4 && AllBytes(s)
    ensures k < n && MaxLuma(s, n) == LumaOf(s, k)
  {
    LumaOfBytes(s, n - 1);
    if n == 1 {
      k := 0;
    } else {
      k := MaxLumaAttained(s, n - 1);
      if LumaOf(s, n - 1) > MaxLuma(s, n - 1) {
        k := n - 1;
      }
    }
  }

  /** On a non-empty buffer the scan ends with min <= max, both in [0,255]. */
  lemma ScanOrdered(s: seq<int>)
    requires |s| % 4 == 0 && 0 < |s| && AllBytes(s)
    ensures var n := |s| / 4;
            0.0 <= MinLuma(s, n) <= MaxLuma(s, n) <= 255.0
  {
    var n := |s| / 4;
    MinLumaIsLower(s, n, 0);
    MaxLumaIsUpper(s, n, 0);
    var a := MinLumaAttained(s, n);
    var b := MaxLumaAttained(s, n);
    LumaOfBytes(s, a);
    LumaOfBytes(s, b);
  }

  /** op_normalize keeps the buffer length, alpha and the channel range. */
  lemma NormalizeRewrites(s: seq<int>)
    requires |s| % 4 == 0
    ensures Rewrites(s, Normalized(s))
  {
    var n := |s| / 4;
    RecolouredRewrites(s, NormalizeRule(MinLuma(s, n), Range(MinLuma(s, n), MaxLuma(s, n))));
  }

  /**
   * With min < max, a channel at or below min becomes 0 and one at or
   * above max becomes 255.
   */
  lemma StretchEnds(lo: real, hi: real, v: int)
    requires lo < hi
    ensures v as real <= lo ==> Stretch(lo, Range(lo, hi), v) == 0
    ensures v as real >= hi ==> Stretch(lo, Range(lo, hi), v) == 255
  {
    var d, x := hi - lo, v as real - lo;
    QuotientSign(x, d);
  }

  lemma QuotientSign(x: real, d: real)
    requires d > 0.0
    ensures x <= 0.0 ==> x / d <= 0.0
    ensures x >= d ==> x / d >= 1.0
  {
    var q := x / d;
    assert q * d == x;
    ProductBelow(q, d);
  }

  lemma ProductBelow(q: real, d: real)
    requires d > 0.0
    ensures q > 0.0 ==> q * d > 0.0
    ensures q < 1.0 ==> q * d < d
  {
  }

  /** With the fallback range 1 the second pass is clamp((v - min) * 255). */
  lemma StretchFlat(lo: real, v: int)
    ensures Stretch(lo, Range(lo, lo), v) == ToByte(Clamp((v as real - lo) * 255.0))
  {
  }

  /**
   * A flat gray image (every pixel R = G = B = v) is not left unchanged:
   * min = max = v, the range falls back to 1 and every colour channel
   * becomes 0.
   */
  lemma NormalizeFlatGray(s: seq<int>, v: int)
    requires |s| % 4 == 0 && 0 < |s| && AllBytes(s) && 0 <= v <= 255
    requires forall i :: 0 <= i < |s| && !IsAlpha(i) ==> s[i] == v
    ensures forall i :: 0 <= i < |s| && !IsAlpha(i) ==> Normalized(s)[i] == 0
  {
    var n := |s| / 4;
    forall k: nat | k < n
      ensures LumaOf(s, k) == v as real
    {
      assert !IsAlpha(4 * k) && !IsAlpha(4 * k + 1) && !IsAlpha(4 * k + 2);
      LumaOfGray(v);
    }
    var a := MinLumaAttained(s, n);
    var b := MaxLumaAttained(s, n);
    assert MinLuma(s, n) == v as real && MaxLuma(s, n) == v as real;
    forall i | 0 <= i < |s| && !IsAlpha(i)
      ensures Normalized(s)[i] == 0
    {
      StretchFlat(v as real, s[i]);
    }
  }
}
