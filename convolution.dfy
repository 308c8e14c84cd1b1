/**
 * `convolve` and `op_edge` of cook.js: a 3x3 convolution over the RGBA
 * buffer that reads a snapshot of the canvas, writes a fresh zero-filled
 * buffer at the interior pixels only, and puts that buffer back whole.
 * Pixels are numbered in row-major order; pixel p sits in column p % w of
 * row p / w, and its channels are 4p .. 4p+3.
 */
module Convolution {
  import opened Numeric
  import opened Raster

  /** The Laplacian kernel of op_edge (cook.js:216-220). */
  const EdgeKernel: seq<int> := [-1, -1, -1, -1, 8, -1, -1, -1, -1]

  /** Pixel p is neither in the first or last row nor in the first or last column. */
  predicate Interior(w: nat, h: nat, p: nat)
  {
    0 < w && 1 <= p % w < w - 1 && 1 <= p / w < h - 1
  }

  /**
   * The channel offsets of the nine neighbours, in the order convolve
   * lists them (cook.js:65-69): row above, own row, row below.
   */
  function Offsets(w: nat): (o: seq<int>)
    ensures |o| == 9
    ensures forall j :: 0 <= j < 9 ==> -4 * w - 4 <= o[j] <= 4 * w + 4
  {
    var r := 4 * w;
    [-r - 4, -r, -r + 4, -4, 0, 4, r - 4, r, r + 4]
  }

  /** sum over j < m of s[i + Offsets(w)[j]] * kernel[j], accumulated in loop order. */
  function WeightedSum(s: seq<int>, w: nat, kernel: seq<int>, i: int, m: nat): int
    requires |kernel| == 9 && m <= 9
    requires 4 * w + 4 <= i && i + 4 * w + 4 < |s|
  {
    if m == 0 then 0
    else WeightedSum(s, w, kernel, i, m - 1) + s[i + Offsets(w)[m - 1]] * kernel[m - 1]
  }

  /** The channels of an interior pixel have all nine neighbours inside the buffer. */
  lemma InteriorBounds(w: nat, h: nat, p: nat)
    requires Interior(w, h, p)
    ensures 4 * w + 4 <= 4 * p && 4 * p + 4 * w + 8 <= w * h * 4
  {
    var y, x := p / w, p % w;
    assert p == y * w + x;
    assert y * w + w <= (h - 1) * w by {
      assert (h - 1) * w == (h - 2) * w + w;
      assert y * w <= (h - 2) * w;
    }
    assert w <= y * w;
  }

  /**
   * The value convolve leaves in channel i: 0 outside the interior (the
   * destination starts zeroed and border pixels are never written), the
   * source alpha, or the clamped kernel sum over the snapshot `s`.
   */
  function ConvolvedAt(s: seq<int>, w: nat, h: nat, kernel: seq<int>, i: nat): int
    requires |s| == w * h * 4 && |kernel| == 9 && i < |s|
  {
    var p := i / 4;
    if !Interior(w, h, p) then 0
    else if IsAlpha(i) then s[i]
    else
      InteriorBounds(w, h, p);
      Clip(WeightedSum(s, w, kernel, i, 9))
  }

  function Convolved(s: seq<int>, w: nat, h: nat, kernel: seq<int>): seq<int>
    requires |s| == w * h * 4 && |kernel| == 9
  {
    seq(|s|, i requires 0 <= i < |s| => ConvolvedAt(s, w, h, kernel, i))
  }

  // -------------------------------------------------------- index arithmetic

  /** Pixel y*w + x with 0 <= x < w sits in row y, column x. */
  lemma RowColumn(w: nat, y: nat, x: nat)
    requires x < w
    ensures (y * w + x) / w == y && (y * w + x) % w == x
  {
    DivModUnique(y * w + x, w, y, x);
  }

  /** A pixel at or after the start of row y lies in row y or below. */
  lemma RowAtLeast(w: nat, y: nat, p: nat)
    requires 0 < w && y * w <= p
    ensures y <= p / w
  {
    var m := p - y * w;
    assert p == (y + m / w) * w + m % w;
    DivModUnique(p, w, y + m / w, m % w);
  }

  /**
   * The pixels from the end of row y's scan (column x >= w-1) to column 1
   * of row y+1 are border pixels.
   */
  lemma RowGap(w: nat, h: nat, y: nat, x: nat, p: nat)
    requires 0 < w && w - 1 <= x && y * w + x <= p < (y + 1) * w + 1
    ensures !Interior(w, h, p)
  {
    assert (y + 1) * w == y * w + w;
    if p < (y + 1) * w {
      RowColumn(w, y, p - y * w);
    } else {
      RowColumn(w, y + 1, 0);
    }
  }

  /** The pixels before column 1 of row 1 are border pixels. */
  lemma FirstRowGap(w: nat, h: nat, p: nat)
    requires p < w + 1
    ensures !Interior(w, h, p)
  {
    if 0 < w {
      if p < w {
        RowColumn(w, 0, p);
      } else {
        RowColumn(w, 1, 0);
      }
    }
  }

  /** From column 1 of row y >= h-1 on, every pixel is a border pixel. */
  lemma PastLastRow(w: nat, h: nat, y: nat, p: nat)
    requires h <= y + 1 && y * w + 1 <= p
    ensures !Interior(w, h, p)
  {
    if 0 < w {
      RowAtLeast(w, y, p);
    }
  }

  // ------------------------------------------------------------- the method

  /**
   * The nine weighted reads of convolve for the pixel at channel idx
   * (cook.js:63-75), from the snapshot `src`.
   */
  method NeighbourSums(src: seq<int>, width: nat, kernel: seq<int>, idx: nat) returns (r: int, g: int, b: int)
    requires |kernel| == 9 && 4 * width + 4 <= idx && idx + 4 * width + 8 <= |src|
    ensures r == WeightedSum(src, width, kernel, idx, 9)
    ensures g == WeightedSum(src, width, kernel, idx + 1, 9)
    ensures b == WeightedSum(src, width, kernel, idx + 2, 9)
  {
    var w := width * 4;
    var neighbors := [idx - w - 4, idx - w, idx - w + 4, idx - 4, idx, idx + 4, idx + w - 4, idx + w, idx + w + 4];
    r, g, b := 0, 0, 0;
    var i := 0;
    while i < 9
      invariant 0 <= i <= 9
      invariant r == WeightedSum(src, width, kernel, idx, i)
      invariant g == WeightedSum(src, width, kernel, idx + 1, i)
      invariant b == WeightedSum(src, width, kernel, idx + 2, i)
    {
      var nIdx := neighbors[i];
      assert nIdx == idx + Offsets(width)[i];
      r := r + src[nIdx] * kernel[i];
      g := g + src[nIdx + 1] * kernel[i];
      b := b + src[nIdx + 2] * kernel[i];
      i := i + 1;
    }
  }

  /**
   * The body of the two nested loops for the interior pixel at channel
   * idx (cook.js:63-79): the sums, then the four stores into the
   * destination.
   */
  method ConvolvePixel(src: seq<int>, dst: array<int>, width: nat, height: nat, kernel: seq<int>, idx: nat)
    requires |src| == dst.Length == width * height * 4 && |kernel| == 9
    requires idx % 4 == 0 && Interior(width, height, idx / 4)
    modifies dst
    ensures idx + 4 <= dst.Length
    ensures forall j :: 0 <= j < dst.Length ==>
      dst[j] == if idx <= j < idx + 4 then ConvolvedAt(src, width, height, kernel, j) else old(dst[j])
  {
    InteriorBounds(width, height, idx / 4);
    var r, g, b := NeighbourSums(src, width, kernel, idx);
    assert (idx + 1) / 4 == (idx + 2) / 4 == (idx + 3) / 4 == idx / 4;
    dst[idx] := Clip(r);
    dst[idx + 1] := Clip(g);
    dst[idx + 2] := Clip(b);
    dst[idx + 3] := src[idx + 3];
  }

  /** Channels of the pixels before `pos` hold their result, the rest are still 0. */
  ghost predicate ScannedUpTo(dst: seq<int>, src: seq<int>, w: nat, h: nat, kernel: seq<int>, pos: int)
    requires |src| == |dst| == w * h * 4 && |kernel| == 9
  {
    forall j :: 0 <= j < |dst| ==> dst[j] == if j / 4 < pos then ConvolvedAt(src, w, h, kernel, j) else 0
  }

  /** Moving `pos` across border pixels keeps ScannedUpTo. */
  lemma SkipBorder(dst: seq<int>, src: seq<int>, w: nat, h: nat, kernel: seq<int>, pos: int, next: int)
    requires |src| == |dst| == w * h * 4 && |kernel| == 9 && pos <= next
    requires ScannedUpTo(dst, src, w, h, kernel, pos)
    requires forall p: nat :: pos <= p < next ==> !Interior(w, h, p)
    ensures ScannedUpTo(dst, src, w, h, kernel, next)
  {
    forall j | 0 <= j < |dst|
      ensures dst[j] == if j / 4 < next then ConvolvedAt(src, w, h, kernel, j) else 0
    {
      if pos <= j / 4 < next {
        assert !Interior(w, h, j / 4);
      }
    }
  }

  /**
   * One pass of the inner loop of convolve (cook.js:62-80) over row y:
   * afterwards every pixel before column 1 of row y+1 holds its result.
   */
  method ConvolveRow(src: seq<int>, dst: array<int>, width: nat, height: nat, kernel: seq<int>, y: nat)
    requires |src| == dst.Length == width * height * 4 && |kernel| == 9
    requires 1 <= y < height - 1
    requires ScannedUpTo(dst[..], src, width, height, kernel, y * width + 1)
    modifies dst
    ensures ScannedUpTo(dst[..], src, width, height, kernel, (y + 1) * width + 1)
  {
    var x := 1;
    ghost var pos := y * width + 1;
    while x < width - 1
      invariant 1 <= x && (x <= width - 1 || x == 1)
      invariant pos == y * width + x
      invariant ScannedUpTo(dst[..], src, width, height, kernel, pos)
    {
      RowColumn(width, y, x);
      var idx := (y * width + x) * 4;
      ghost var before := dst[..];
      ConvolvePixel(src, dst, width, height, kernel, idx);
      forall j | 0 <= j < dst.Length
        ensures dst[j] == if j / 4 < pos + 1 then ConvolvedAt(src, width, height, kernel, j) else 0
      {
        assert before[j] == if j / 4 < pos then ConvolvedAt(src, width, height, kernel, j) else 0;
      }
      x := x + 1;
      pos := pos + 1;
    }
    forall p: nat | pos <= p < (y + 1) * width + 1 ensures !Interior(width, height, p) {
      RowGap(width, height, y, x, p);
    }
    SkipBorder(dst[..], src, width, height, kernel, pos, (y + 1) * width + 1);
  }

  /**
   * `convolve(ctx, kernel)` (cook.js:53-83) on a width x height canvas. The
   * result depends only on the buffer as it was before the call.
   */
  method Convolve(data: array<int>, width: nat, height: nat, kernel: seq<int>)
    requires data.Length == width * height * 4 && |kernel| == 9
    modifies data
    ensures data[..] == Convolved(old(data[..]), width, height, kernel)
  {
    var src := data[..];
    var dst := new int[data.Length](_ => 0);
    assert ScannedUpTo(dst[..], src, width, height, kernel, 0);
    forall p: nat | p < width + 1 ensures !Interior(width, height, p) {
      FirstRowGap(width, height, p);
    }
    SkipBorder(dst[..], src, width, height, kernel, 0, width + 1);
    var y := 1;
    while y < height - 1
      invariant 1 <= y && (y <= height - 1 || y == 1)
      invariant ScannedUpTo(dst[..], src, width, height, kernel, y * width + 1)
    {
      ConvolveRow(src, dst, width, height, kernel, y);
      y := y + 1;
    }
    ghost var pos := y * width + 1;
    if pos < width * height {
      forall p: nat | pos <= p < width * height ensures !Interior(width, height, p) {
        PastLastRow(width, height, y, p);
      }
      SkipBorder(dst[..], src, width, height, kernel, pos, width * height);
      pos := width * height;
    }
    forall i | 0 <= i < data.Length {
      data[i] := dst[i];
    }
    assert forall j :: 0 <= j < data.Length ==> j / 4 < pos;
  }

  /** `op_edge` (cook.js:215-222). */
  method OpEdge(data: array<int>, width: nat, height: nat)
    requires data.Length == width * height * 4
    modifies data
    ensures data[..] == Convolved(old(data[..]), width, height, EdgeKernel)
  {
    Convolve(data, width, height, EdgeKernel);
  }

  // -------------------------------------------------------------- properties

  /**
   * The kernel sum in closed form: the weights of the row above, the own
   * row and the row below, each read at channel i of the neighbouring pixel.
   */
  function Stencil(s: seq<int>, w: nat, kernel: seq<int>, i: int): int
    requires |kernel| == 9 && 4 * w + 4 <= i && i + 4 * w + 4 < |s|
  {
    var up, down := i - 4 * w, i + 4 * w;
    s[up - 4] * kernel[0] + s[up] * kernel[1] + s[up + 4] * kernel[2] +
    s[i - 4] * kernel[3] + s[i] * kernel[4] + s[i + 4] * kernel[5] +
    s[down - 4] * kernel[6] + s[down] * kernel[7] + s[down + 4] * kernel[8]
  }

  lemma WeightedSumIsStencil(s: seq<int>, w: nat, kernel: seq<int>, i: int)
    requires |kernel| == 9 && 4 * w + 4 <= i && i + 4 * w + 4 < |s|
    ensures WeightedSum(s, w, kernel, i, 9) == Stencil(s, w, kernel, i)
  {
    var up, down := i - 4 * w, i + 4 * w;
    var o := Offsets(w);
    assert i + o[0] == up - 4 && i + o[1] == up && i + o[2] == up + 4;
    assert i + o[3] == i - 4 && i + o[4] == i && i + o[5] == i + 4;
    assert i + o[6] == down - 4 && i + o[7] == down && i + o[8] == down + 4;
    assert WeightedSum(s, w, kernel, i, 1) == s[up - 4] * kernel[0];
    assert WeightedSum(s, w, kernel, i, 2) == WeightedSum(s, w, kernel, i, 1) + s[up] * kernel[1];
    assert WeightedSum(s, w, kernel, i, 3) == WeightedSum(s, w, kernel, i, 2) + s[up + 4] * kernel[2];
    assert WeightedSum(s, w, kernel, i, 4) == WeightedSum(s, w, kernel, i, 3) + s[i - 4] * kernel[3];
    assert WeightedSum(s, w, kernel, i, 5) == WeightedSum(s, w, kernel, i, 4) + s[i] * kernel[4];
    assert WeightedSum(s, w, kernel, i, 6) == WeightedSum(s, w, kernel, i, 5) + s[i + 4] * kernel[5];
    assert WeightedSum(s, w, kernel, i, 7) == WeightedSum(s, w, kernel, i, 6) + s[down - 4] * kernel[6];
    assert WeightedSum(s, w, kernel, i, 8) == WeightedSum(s, w, kernel, i, 7) + s[down] * kernel[7];
  }

  /** The nine neighbours of an interior pixel are the pixels one row and one column away. */
  lemma NeighbourCoordinates(w: nat, h: nat, p: nat, dx: int, dy: int)
    requires Interior(w, h, p) && -1 <= dx <= 1 && -1 <= dy <= 1
    ensures 0 <= p + dy * w + dx
    ensures (p + dy * w + dx) / w == p / w + dy && (p + dy * w + dx) % w == p % w + dx
  {
    var y, x := p / w, p % w;
    assert p + dy * w + dx == (y + dy) * w + (x + dx);
    RowColumn(w, y + dy, x + dx);
  }

  /**
   * convolve sets a colour channel of an interior pixel to the clamped
   * kernel sum over the snapshot (cook.js:63-78).
   */
  lemma ConvolveColour(s: seq<int>, w: nat, h: nat, kernel: seq<int>, p: nat, c: nat)
    requires |s| == w * h * 4 && |kernel| == 9 && Interior(w, h, p) && c < 3
    ensures 4 * w + 4 <= 4 * p && 4 * p + 4 * w + 8 <= |s|
    ensures Convolved(s, w, h, kernel)[4 * p + c] == Clip(Stencil(s, w, kernel, 4 * p + c))
  {
    InteriorBounds(w, h, p);
    assert (4 * p + c) / 4 == p;
    WeightedSumIsStencil(s, w, kernel, 4 * p + c);
  }

  /** convolve copies the alpha of an interior pixel from the snapshot (cook.js:79). */
  lemma ConvolveAlpha(s: seq<int>, w: nat, h: nat, kernel: seq<int>, p: nat)
    requires |s| == w * h * 4 && |kernel| == 9 && Interior(w, h, p)
    ensures 4 * p + 3 < |s|
    ensures Convolved(s, w, h, kernel)[4 * p + 3] == s[4 * p + 3]
  {
    InteriorBounds(w, h, p);
    assert (4 * p + 3) / 4 == p;
  }

  /**
   * Every channel, alpha included, of a pixel in the first or last row or
   * column is 0 after convolve (cook.js:56, 61-62, 82).
   */
  lemma ConvolveBorder(s: seq<int>, w: nat, h: nat, kernel: seq<int>, i: nat)
    requires |s| == w * h * 4 && |kernel| == 9 && i < |s|
    requires var p := i / 4; p % w == 0 || p % w == w - 1 || p / w == 0 || p / w == h - 1
    ensures Convolved(s, w, h, kernel)[i] == 0
  {
  }

  /** A canvas narrower or lower than 3 pixels has no interior and becomes all zeros. */
  lemma ConvolveSmallIsZero(s: seq<int>, w: nat, h: nat, kernel: seq<int>)
    requires |s| == w * h * 4 && |kernel| == 9 && (w < 3 || h < 3)
    ensures forall i :: 0 <= i < |s| ==> Convolved(s, w, h, kernel)[i] == 0
  {
  }

  /** convolve keeps the buffer length and yields channel values from channel values. */
  lemma ConvolvedBytes(s: seq<int>, w: nat, h: nat, kernel: seq<int>)
    requires |s| == w * h * 4 && |kernel| == 9 && AllBytes(s)
    ensures |Convolved(s, w, h, kernel)| == |s| && AllBytes(Convolved(s, w, h, kernel))
  {
  }

  /**
   * op_edge is a Laplacian: a colour channel of an interior pixel becomes
   * 8 times its own value minus its eight neighbours, clamped.
   */
  lemma EdgeLaplacian(s: seq<int>, w: nat, h: nat, p: nat, c: nat)
    requires |s| == w * h * 4 && Interior(w, h, p) && c < 3
    ensures 4 * w + 4 <= 4 * p && 4 * p + 4 * w + 8 <= |s|
    ensures var i, up, down := 4 * p + c, 4 * p + c - 4 * w, 4 * p + c + 4 * w;
            Convolved(s, w, h, EdgeKernel)[i] ==
              Clip(8 * s[i] - s[up - 4] - s[up] - s[up + 4] - s[i - 4] - s[i + 4] - s[down - 4] - s[down] - s[down + 4])
  {
    ConvolveColour(s, w, h, EdgeKernel, p, c);
  }

  /** Channel i has the same value at all nine pixels of its 3x3 neighbourhood. */
  predicate FlatAround(s: seq<int>, w: nat, i: int)
  {
    && 4 * w + 4 <= i && i + 4 * w + 4 < |s|
    && var v, up, down := s[i], i - 4 * w, i + 4 * w;
       s[up - 4] == v && s[up] == v && s[up + 4] == v && s[i - 4] == v && s[i + 4] == v &&
       s[down - 4] == v && s[down] == v && s[down + 4] == v
  }

  /** The edge kernel sums to 0, so op_edge maps a flat neighbourhood to 0. */
  lemma EdgeOnFlat(s: seq<int>, w: nat, h: nat, p: nat, c: nat)
    requires |s| == w * h * 4 && Interior(w, h, p) && c < 3 && FlatAround(s, w, 4 * p + c)
    ensures Convolved(s, w, h, EdgeKernel)[4 * p + c] == 0
  {
    EdgeLaplacian(s, w, h, p, c);
  }
}
