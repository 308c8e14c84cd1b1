/**
 * Scalar helpers of cook.js: the channel clamp, the store into a
 * Uint8ClampedArray element, Math.round and the bounded random integer.
 * JavaScript numbers are modelled as exact reals.
 */
module Numeric {

  /** `clamp` (cook.js:158-160): Math.max(0, Math.min(255, v)). */
  function Clamp(v: real): (r: real)
    ensures 0.0 <= r <= 255.0
    ensures 0.0 <= v <= 255.0 ==> r == v
    ensures v < 0.0 ==> r == 0.0
    ensures v > 255.0 ==> r == 255.0
  {
    if v < 0.0 then 0.0 else if v > 255.0 then 255.0 else v
  }

  /** `clamp` on an integer, where no rounding is involved. */
  function Clip(n: int): (r: int)
    ensures 0 <= r <= 255
    ensures 0 <= n <= 255 ==> r == n
    ensures r as real == Clamp(n as real)
  {
    if n < 0 then 0 else if n > 255 then 255 else n
  }

  /**
   * The value an ImageData channel holds after `data[i] = v`: the
   * Uint8ClampedArray conversion clamps to [0,255] and rounds to the
   * nearest integer, ties going to the even one.
   */
  function ToByte(v: real): (b: int)
    ensures 0 <= b <= 255
    ensures 0.0 <= v <= 255.0 ==> v - 0.5 <= b as real <= v + 0.5
    ensures v <= 0.0 ==> b == 0
    ensures v >= 255.0 ==> b == 255
  {
    if v <= 0.0 then 0
    else if v >= 255.0 then 255
    else
      var f := v.Floor;
      if f as real + 0.5 < v then f + 1
      else if v < f as real + 0.5 then f
      else if f % 2 == 0 then f
      else f + 1
  }

  /** A value that already is a channel value is stored unchanged. */
  lemma ToByteOfByte(k: int)
    requires 0 <= k <= 255
    ensures ToByte(k as real) == k
  {
    assert (k as real).Floor == k;
  }

  /** Exactly half-way between two channel values, the store picks the even one. */
  lemma ToByteTieIsEven(k: int)
    requires 0 <= k < 255
    ensures ToByte(k as real + 0.5) % 2 == 0
    ensures ToByte(k as real + 0.5) == k || ToByte(k as real + 0.5) == k + 1
  {
    assert (k as real + 0.5).Floor == k;
  }

  /** Math.round: the nearest integer, ties rounded up. */
  function Round(x: real): (n: int)
    ensures x - 0.5 < n as real <= x + 0.5
  {
    (x + 0.5).Floor
  }

  /**
   * `randInt(min, max)` (cook.js:50) where `r` is the value Math.random()
   * returned: Math.floor(r * (max - min + 1)) + min.
   */
  function RandInt(r: real, lo: int, hi: int): (n: int)
    requires 0.0 <= r < 1.0
    ensures lo <= hi ==> lo <= n <= hi
  {
    var span := (hi - lo + 1) as real;
    ScaleUnit(r, span);
    (r * span).Floor + lo
  }

  lemma ScaleUnit(r: real, m: real)
    requires 0.0 <= r < 1.0
    ensures m > 0.0 ==> 0.0 <= r * m < m
  {
    assert m - r * m == (1.0 - r) * m;
  }

  /** Every value of [lo, hi] is drawn for some value of Math.random(). */
  lemma RandIntReaches(lo: int, hi: int, k: int)
    requires lo <= k <= hi
    ensures var r := (k - lo) as real / (hi - lo + 1) as real;
            0.0 <= r < 1.0 && RandInt(r, lo, hi) == k
  {
    var m := (hi - lo + 1) as real;
    var r := (k - lo) as real / m;
    assert r * m == (k - lo) as real;
    assert ((k - lo) as real).Floor == k - lo;
  }

  // ---------------------------------------------------- integer arithmetic

  /** A multiple of a positive w below w is at most 0. */
  lemma MulBelow(d: int, w: int)
    requires w > 0 && d * w < w
    ensures d <= 0
  {
  }

  /** Euclidean division has exactly one quotient and remainder. */
  lemma DivModUnique(n: int, w: int, q: int, r: int)
    requires w > 0 && 0 <= r < w && n == q * w + r
    ensures n / w == q && n % w == r
  {
    var q', r' := n / w, n % w;
    assert (q - q') * w == r' - r;
    MulBelow(q - q', w);
    MulBelow(q' - q, w);
  }
}
