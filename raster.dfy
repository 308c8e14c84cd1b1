/**
 * The shared <canvas> of cook.js as an explicit RGBA buffer: `data` is the
 * ImageData channel array, four channels per pixel in row-major order, and
 * every channel holds a value in [0,255].
 */
module Raster {

  predicate AllBytes(s: seq<int>)
  {
    forall i :: 0 <= i < |s| ==> 0 <= s[i] <= 255
  }

  /** Channel index `i` is the alpha channel of its pixel. */
  predicate IsAlpha(i: int)
  {
    i % 4 == 3
  }

  /**
   * `r` is `s` rewritten in place: the same number of channels, every alpha
   * channel as it was, and channel values still in [0,255] when they were.
   */
  predicate Rewrites(s: seq<int>, r: seq<int>)
  {
    && |r| == |s|
    && (forall i {:trigger r[i]} :: 0 <= i < |s| && IsAlpha(i) ==> r[i] == s[i])
    && (AllBytes(s) ==> AllBytes(r))
  }

  /**
   * A browser routine cook.js hands the whole canvas to and whose result it
   * draws back over the canvas: the JPEG encode/decode round trip of
   * `compressQuality` and the drawImage resampling of `resizeShuffle`.
   * It receives the canvas width and height, its channels and one setting
   * (the JPEG quality, or the width of the temporary canvas).
   */
  type Redraw = (nat, nat, seq<int>, real) -> seq<int>

  /** drawImage always covers the canvas with channel values. */
  ghost predicate KeepsShape(f: Redraw)
  {
    forall w: nat, h: nat, s: seq<int>, q: real ::
      |f(w, h, s, q)| == w * h * 4 && AllBytes(f(w, h, s, q))
  }

  /** A w x h canvas holds whole pixels of four channels each. */
  lemma PixelCount(w: nat, h: nat)
    ensures (w * h * 4) % 4 == 0 && (w * h * 4) / 4 == w * h
  {
  }

  class Canvas {
    var width: nat
    var height: nat
    var data: array<int>

    ghost predicate Valid()
      reads this, data
    {
      data.Length == width * height * 4 && AllBytes(data[..])
    }

    /**
     * Setting canvas.width and canvas.height and then drawing an image over
     * it (drawImageToCanvas, cook.js:44-46); `pixels` is what drawImage
     * produced at that size.
     */
    method Reset(w: nat, h: nat, pixels: seq<int>)
      requires |pixels| == w * h * 4 && AllBytes(pixels)
      modifies this
      ensures Valid() && fresh(data)
      ensures width == w && height == h && data[..] == pixels
    {
      width, height := w, h;
      data := new int[|pixels|](i requires 0 <= i < |pixels| => pixels[i]);
    }

    /** putImageData over the whole canvas, or drawImage of a full-size result. */
    method Put(pixels: seq<int>)
      requires Valid()
      requires |pixels| == data.Length && AllBytes(pixels)
      modifies data
      ensures Valid() && data[..] == pixels
    {
      forall i | 0 <= i < data.Length {
        data[i] := pixels[i];
      }
    }
  }
}
