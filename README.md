# Cookery (browser edition) in Dafny

Cookery "cooks" an image: it loads a picture onto an HTML canvas and applies
a chain of randomly chosen degrading operations to it. The seven operations
are saturation and brightness modulation, JPEG re-compression, contrast
stretch, down-and-up resampling, a 3x3 edge convolution, per-pixel noise and
luminance normalisation. This project models the image-processing core of
`cook.js`:

- the helpers `clamp` and `randInt`;
- the pixel routines `convolve`, `adjustContrast`, `adjustSaturation`,
  `adjustBrightness`, `addNoise` and `op_normalize`;
- how the operation wrappers turn a random draw and the user's strength into
  settings;
- the canvas sizing of `drawImageToCanvas`;
- the driver `cook`, with its defaults and its loop.

It proves properties of each of these.

Modules, one per concern:

- `Numeric` (numeric.dfy) — `clamp`, the store into a `Uint8ClampedArray`
  (`ToByte`), `Math.round` and `randInt`.
- `Raster` (raster.dfy) — the canvas as a class.
  - Its fields are `width`, `height` and the RGBA channel array `data`.
  - `Reset` sets the size and draws the image; `Put` draws over the whole
    canvas.
  - It also defines `Rewrites`: the shape every in-place pixel routine keeps
    (same length, alpha untouched, channel values stay in [0,255]).
- `Adjust` (adjust.dfy) — the four per-pixel routines.
  - All four run one shared in-place loop over the channel array,
    `RecolourPixels`. It is proved against `Recoloured`, the buffer it must
    leave.
  - Each routine is that loop with its own per-channel rule. Each rule is
    specified by a function on sequences (`Contrasted`, `Saturated`,
    `Brightened`, `Noised`), and the properties are proved as lemmas about
    those functions.
- `Convolution` (convolution.dfy) — `convolve` and `op_edge`.
  - The nested loops are kept: over interior rows, over interior columns,
    and over the nine kernel taps.
  - They write into a fresh zeroed buffer, taken from a snapshot of the
    source, which is then copied back.
- `Normalize` (normalize.dfy) — the two passes of `op_normalize`: the
  luminance scan (`LumaRange`) and the channel stretch.
- `Params` (params.dfy) — the settings `op_modulate`, `op_compress`,
  `op_contrast`, `op_resize` and `op_noise` derive from a draw and the
  strength.
- `Cook` (cook.dfy) — the integer value `parseInt` returns, the defaults,
  `drawImageToCanvas` sizing, the operation table, one method per operation
  on the canvas, and `cook` itself. The operation table is picked from by a
  draw.

Modelling decisions:

- JavaScript numbers are modelled as exact reals. Channel values are
  integers in [0,255].
- Assigning a number to a `Uint8ClampedArray` clamps it to [0,255] and then
  rounds half to even. That is `ToByte`, and every store into `data` goes
  through it. `convolve` sums integers, so its `Math.min(Math.max(..))`
  needs no rounding and is `Clip`.
- Every `Math.random()` result is a parameter: a real in [0,1).
  - `Cook.Draws` is what one iteration of the loop consumes: the pick, up
    to two settings, and one draw per pixel for `addNoise`.
  - `randInt(min, max)` is `floor(r * (max - min + 1)) + min`.
- `Math.round(x)` is `floor(x + 0.5)`.
- `adjustContrast` with value 259 divides by zero, which gives an infinite
  factor. The stored channel is then 255 above 128 and 0 otherwise (at 128,
  0 times infinity is NaN, which stores 0). The model states this case
  explicitly.
- The JPEG round trip of `compressQuality` and the two `drawImage` calls of
  `resizeShuffle` are browser routines. They are parameters of type
  `Raster.Redraw`. The model assumes only that they return a full canvas of
  channel values (`KeepsShape`).
- The image bitmap that `drawImageToCanvas` paints is a parameter (`drawn`)
  of the size `FitSize` chooses.

Behaviour worth knowing:

- `op_edge` sets the 1-pixel border, alpha included, to 0, because it writes
  into a fresh `createImageData` buffer (`Convolution.ConvolveBorder`).
- On a flat image (min = max) `op_normalize` is not in general a no-op. The range falls
  back to 1, and a flat gray image turns black (`Normalize.NormalizeFlatGray`).
- `op_compress` scales the draw by the strength.
- `op_noise` uses `round(60 * strength)`.
- Only the width is limited to 800 pixels. A tall narrow image keeps its
  height, and an image more than 800 times wider than tall gets height 0
  (`Cook.FitSize`, `Cook.FitSizeCanBeEmpty`).

## Model

| member | source | states |
|---|---|---|
| Numeric.Clamp | cook.js:158-160 | result in [0,255]; identity on [0,255]; below 0 gives 0, above 255 gives 255 |
| Numeric.Clip | cook.js:76-78 | integer clamp in [0,255], identity on channel values, agrees with `clamp` |
| Numeric.ToByte | cook.js:93 | channel store: result in [0,255], within 0.5 of any value in [0,255], saturates at both ends |
| Numeric.ToByteOfByte | cook.js:93 | storing a channel value leaves it unchanged |
| Numeric.ToByteTieIsEven | cook.js:93 | a value halfway between two channel values stores the even one |
| Numeric.Round | cook.js:183 | `Math.round` is within half a unit: x - 0.5 < n <= x + 0.5 |
| Numeric.RandInt | cook.js:50 | randInt(min, max) lies in [min, max] whenever min <= max |
| Numeric.RandIntReaches | cook.js:50 | every integer of [min, max] is produced by some draw |
| Raster.Canvas.Reset | cook.js:44-46 | the canvas gets the new size and exactly the drawn pixels, and is valid |
| Raster.Canvas.Put | cook.js:82 | drawing a full-size buffer replaces the channels and keeps the canvas valid |
| Adjust.RecolourPixels | cook.js:92-96 | the shared in-place loop leaves exactly `Recoloured` of the old buffer: each colour channel is the rule applied to its pixel's old R, G, B; alpha is untouched |
| Adjust.RecolouredPixel | cook.js:106-113 | each pixel's three colour channels come from the same old R, G, B; alpha is kept |
| Adjust.RecolouredRewrites | cook.js:92-96 | a rule with results in [0,255] keeps the length, the alpha channels and the channel range |
| Adjust.AdjustContrast | cook.js:86-98 | the buffer becomes `Contrasted(old, value)` |
| Adjust.ContrastRewrites | cook.js:92-96 | adjustContrast keeps length, alpha and channel range |
| Adjust.ContrastPerChannel | cook.js:91-95 | each colour channel is the stored clamp(factor * (v - 128) + 128) of itself |
| Adjust.ContrastPivot | cook.js:91-95 | 128 maps to 128 for every finite factor; value 259 (infinite factor) sends it to 0 |
| Adjust.ContrastKeepsMidGray | cook.js:91-95 | an image of mid gray 128 is a fixed point of every finite contrast |
| Adjust.ContrastZeroIdentity | cook.js:91-95 | value 0 (factor 1) leaves every channel buffer unchanged |
| Adjust.ContrastMonotone | cook.js:91-95 | for -255 < value < 259 the channel map is monotone, so the order of channel values is kept |
| Adjust.ToByteMonotone | cook.js:93 | the channel store is monotone |
| Adjust.AdjustSaturation | cook.js:101-115 | the buffer becomes `Saturated(old, percent)` |
| Adjust.SaturationRewrites | cook.js:106-113 | adjustSaturation keeps length, alpha and channel range |
| Adjust.SaturatedPixel | cook.js:105-112 | each colour channel is gray + (v - gray) * percent / 100, with gray from the pixel's old R, G, B |
| Adjust.SaturationIdentity | cook.js:105-112 | percent 100 leaves the buffer unchanged |
| Adjust.SaturationChannelZero | cook.js:110-112 | with p = 0 a channel becomes the stored pixel gray |
| Adjust.SaturationZeroIsGray | cook.js:109-112 | percent 0 gives every pixel R = G = B = its stored gray |
| Adjust.AdjustBrightness | cook.js:118-129 | the buffer becomes `Brightened(old, value)` |
| Adjust.BrightnessRewrites | cook.js:123-127 | adjustBrightness keeps length, alpha and channel range |
| Adjust.BrightnessIdentity | cook.js:123-127 | value 0 leaves the buffer unchanged |
| Adjust.BrightnessShift | cook.js:124-126 | an integer value n sends each colour channel v to Clip(v + n) |
| Adjust.ShiftedChannel | cook.js:138-140 | adding n and storing gives Clip(v + n), which moves towards v + n and never past it |
| Adjust.AddNoise | cook.js:132-143 | the buffer becomes `Noised(old, amount, draws)` |
| Adjust.NoiseRewrites | cook.js:136-141 | addNoise keeps length, alpha and channel range |
| Adjust.NoisedPixel | cook.js:137-140 | one offset per pixel (from that pixel's draw) is added to all three colour channels |
| Adjust.NoiseSharedOffset | cook.js:137-140 | that offset lies in [-amount, amount] and each colour channel becomes Clip(v + n) |
| Adjust.NoiseBoundedChange | cook.js:137-140 | no channel moves by more than amount |
| Adjust.NoiseZeroIdentity | cook.js:137-140 | amount 0 leaves the buffer unchanged |
| Adjust.NoiseByRule | cook.js:136-141 | addNoise is the shared loop with the noise rule, so the loop's result is `Noised` |
| Convolution.NeighbourSums | cook.js:63-75 | the nine-tap loop computes the weighted sums of R, G and B |
| Convolution.ConvolvePixel | cook.js:64-79 | one interior pixel of the destination gets its convolved value; nothing else changes |
| Convolution.ConvolveRow | cook.js:62-80 | after a row, every pixel up to the next row's first interior pixel holds its convolved value |
| Convolution.Convolve | cook.js:53-83 | the buffer becomes `Convolved(old, width, height, kernel)`, computed from a snapshot of the source |
| Convolution.OpEdge | cook.js:215-222 | op_edge is convolve with the kernel 8 / -1 |
| Convolution.WeightedSumIsStencil | cook.js:65-75 | the loop's running sum is the closed nine-term stencil around the pixel |
| Convolution.NeighbourCoordinates | cook.js:65-69 | the neighbour offsets of an interior pixel address the pixels one step away in x and y |
| Convolution.ConvolveColour | cook.js:70-78 | an interior colour channel is the clamp of the stencil sum of the old buffer |
| Convolution.ConvolveAlpha | cook.js:79 | an interior pixel's alpha is copied from the source |
| Convolution.ConvolveBorder | cook.js:56 | every channel of a border pixel, alpha included, is 0 |
| Convolution.ConvolveSmallIsZero | cook.js:61-62 | an image narrower or shorter than 3 pixels becomes all zeros |
| Convolution.ConvolvedBytes | cook.js:76-79 | the result keeps the size and holds channel values |
| Convolution.EdgeLaplacian | cook.js:216-221 | with the edge kernel, an interior channel is Clip(8 v minus its eight neighbours) |
| Convolution.EdgeOnFlat | cook.js:216-221 | a channel equal to all its neighbours becomes 0 |
| Normalize.LumaRange | cook.js:229-234 | the first loop leaves min and max as the folds `MinLuma` and `MaxLuma` over all pixels |
| Normalize.Range | cook.js:235 | `max - min or 1` is never 0; it is 1 exactly when max = min and the difference otherwise |
| Normalize.OpNormalize | cook.js:224-242 | the buffer becomes `Normalized(old)` |
| Normalize.LumaOfBytes | cook.js:231 | the luminance of channel values lies in [0,255] |
| Normalize.LumaOfGray | cook.js:231 | a gray pixel's luminance is its value |
| Normalize.MinLumaIsLower | cook.js:229-233 | min is at most 255 and at most every scanned luminance |
| Normalize.MaxLumaIsUpper | cook.js:229-234 | max is at least 0 and at least every scanned luminance |
| Normalize.MinLumaAttained | cook.js:229-233 | on a non-empty buffer min is the luminance of some pixel |
| Normalize.MaxLumaAttained | cook.js:229-234 | on a non-empty buffer max is the luminance of some pixel |
| Normalize.ScanOrdered | cook.js:229-234 | on a non-empty buffer 0 <= min <= max <= 255 |
| Normalize.NormalizeRewrites | cook.js:236-240 | op_normalize keeps length, alpha and channel range |
| Normalize.StretchEnds | cook.js:237-239 | with min < max, channels at or below min go to 0 and at or above max go to 255 |
| Normalize.StretchFlat | cook.js:235-239 | with min = max the stretch is clamp((v - min) * 255) |
| Normalize.NormalizeFlatGray | cook.js:229-240 | a flat gray image has every colour channel set to 0 |
| Params.ModulateSaturation | cook.js:192-193 | for strength in [0,1] the saturation lies in [100,500] |
| Params.ModulateBrightness | cook.js:196 | for strength in [0,1] the brightness swing lies in [-50,80] |
| Params.ModulateFullRange | cook.js:192-193 | at strength 1 every saturation of [100,500] is drawn by some r |
| Params.ModulateAtZeroStrength | cook.js:191-198 | at strength 0 op_modulate asks for saturation 100 and brightness 0, and the image is unchanged |
| Params.CompressFactorAsWritten | cook.js:181-183 | the factor as written is at least 1 and, for strength in [0,1], at most 101 |
| Params.CompressFactorReaches101 | cook.js:181-186 | the draw rand = 1 at strength 0.01 gives factor 101 and a JPEG quality above 1 |
| Params.CompressFactor | cook.js:183 | the factor with its commented range enforced lies in [1,100] |
| Params.CompressFactorAgrees | cook.js:183 | the corrected factor equals the written one except where that exceeds 100 |
| Params.CompressFullStrength | cook.js:181-183 | at strength 1 the factor is 101 - rand, already in [1,100] |
| Params.JpegQuality | cook.js:186 | quality is at least 0.01, and at most 1 for factors in [1,100] |
| Params.JpegQualityMonotone | cook.js:186 | a larger factor never gives a lower quality |
| Params.ContrastValue | cook.js:201-202 | for strength in [0,1] the contrast value lies in [0,200] |
| Params.ContrastValueRaises | cook.js:200-203 | that value is never 259 and gives a contrast factor of at least 1 |
| Params.ResizeWidth | cook.js:207-211 | the temporary width is at least 1 and, for strength in [0,1], at most the canvas width |
| Params.ResizeHeight | cook.js:147-150 | the temporary height is floor(px * height / width), and it is 0 exactly when px * height < width |
| Params.ResizeFullStrength | cook.js:207-211 | at strength 1, for every canvas width, the temporary width is max(1, floor(rand * width / 100)) |
| Params.NoiseAmount | cook.js:245 | for strength in [0,1] the noise amount lies in [0,60] |
| Cook.Iterations | cook.js:253 | the iteration count is never 0: NaN and 0 give 5, any other integer is kept |
| Cook.Strength | cook.js:254 | the strength is never 0: NaN and 0 give 1, any other integer n gives n/100, in (0,1] for n in [0,100] |
| Cook.Runs | cook.js:259 | the loop runs `iterations` times, or not at all for a negative count |
| Cook.FitSize | cook.js:36-45 | width at most 800 and at most the image's; narrower images keep their size; wider ones get height floor(800 h / w) |
| Cook.FitSizeCanBeEmpty | cook.js:40-45 | an image more than 800 times wider than tall gets a canvas of height 0, e.g. 1700 x 2 becomes 800 x 0 |
| Cook.ResizeCanEmpty | cook.js:146-156 | on a non-empty canvas the temporary height of op_resize can be 0, e.g. 100 x 10, or 1600 x 38 fitted to 800 x 19, with the draw 0 at strength 1 |
| Cook.PickIndex | cook.js:260 | the operation index lies in [0,6] |
| Cook.PickReaches | cook.js:249-260 | each of the seven operations is picked by some draw |
| Cook.Applied | cook.js:180-247 | every operation leaves a full canvas of channel values |
| Cook.Cooked | cook.js:259-262 | any number of iterations leaves a full canvas of channel values |
| Cook.CookedNothing | cook.js:259-262 | zero iterations leave the drawn image |
| Cook.CookedSplit | cook.js:259-262 | iterations compose: the draws ds + es cook as es applied after ds |
| Cook.OpModulate | cook.js:191-198 | saturation then brightness, from the two draws; the canvas stays valid |
| Cook.OpCompress | cook.js:180-188 | the canvas becomes the JPEG round trip at the quality of the factor as written, which can exceed 1 |
| Cook.OpContrast | cook.js:200-204 | the canvas becomes `Contrasted` at the derived value |
| Cook.OpResize | cook.js:206-213 | the canvas becomes the resampling through the derived width |
| Cook.OpEdge | cook.js:215-222 | the canvas becomes the edge convolution of itself |
| Cook.OpNoise | cook.js:244-247 | the canvas becomes `Noised` at the derived amount |
| Cook.OpNormalize | cook.js:224-242 | the canvas becomes `Normalized` |
| Cook.Step | cook.js:260-261 | one iteration runs the picked operation |
| Cook.RunIterations | cook.js:259-262 | the loop leaves `Cooked` over exactly the first Runs(iterations) draws |
| Cook.Cook | cook.js:251-265 | nothing changes before an image is loaded. Otherwise the canvas gets the fitted size and becomes `Cooked` of the drawn image over Runs(Iterations(field)) draws, at Strength(field) |

## Left out

- The DOM wiring is not modelled: element lookup, the buttons, `loadImage`,
  the `download` export and enabling the download button. None of it
  touches the pixels.
- `compressQuality` and `resizeShuffle` are browser routines (JPEG encoding
  and `drawImage` resampling). They are parameters, assumed only to redraw
  the whole canvas with channel values. The height of the temporary canvas
  is modelled (`Params.ResizeHeight`), but the redraw through it is not.
- `Math.random` itself is not modelled. Its results are parameters in [0,1),
  ordered per iteration as `Cook.Draws`.
- IEEE-754 double rounding is not modelled: arithmetic is on exact reals.
  NaN and infinite values are modelled only where the code can produce them
  (contrast value 259) or where they are the input (`parseInt` giving NaN).
- The `await` of each operation and the asynchrony of the JPEG round trip
  are not modelled: the operations run in sequence.
- `parseInt` string parsing is not modelled. The model starts from its
  result, an integer or NaN (`Cook.Parsed`).
- Convolution kernels are modelled as integers, which is all the code uses.
- Adjust.NoiseRule: outside the draws it has a fallback that the noise loop
  never reaches, because addNoise requires a draw for every pixel.
- Cook.Cook: on a zero-area canvas (see `Cook.FitSizeCanBeEmpty`) cook.js
  stops at the first operation. `getImageData` and `createImageData` throw,
  `drawImage` of the zero-height canvas throws, and `toBlob` passes a null
  blob so the compress promise never settles. The model instead treats every
  operation on the empty buffer as a no-op and completes all iterations.
  The same early stop happens at an `op_resize` whose temporary canvas has
  height 0 (see below). The model does not capture either stop.
- Cook.OpResize: when px * height < width, the temporary canvas has height 0
  (`Params.ResizeHeight`, `Cook.ResizeCanEmpty`). cook.js then clears the
  canvas, its `drawImage` of the empty temporary canvas throws, and `cook`
  stops with a blank canvas. The model's `resample` always returns a full
  redrawn canvas, so the loop goes on.
- Raster.Canvas.Put: the canvas is modelled as lossless RGBA storage. A
  browser that stores the canvas premultiplied may read a non-opaque pixel
  back with different colour channels. A fully transparent pixel comes back
  as (0, 0, 0, 0), notably the alpha-0 border that `op_edge` leaves. That
  round trip is not captured.

## Findings

| source | as written | input that shows it | evidently intended | confidence | as-written member | corrected member |
|---|---|---|---|---|---|---|
| cook.js:183-186 | `Math.max(1, Math.round(101 - rand * strength))`. The code's comment says the factor is in "1–100" and the quality in "0.01–1" | rand = 1 with strength 0.01 gives round(100.99) = 101, so the quality is (1.01)^2 = 1.0201, outside the [0,1] range `toBlob` accepts. Any rand * strength <= 0.5 shows it | the factor stays within 1–100 and the quality within 0.01–1 | not executed | Params.CompressFactorAsWritten, Params.CompressFactorReaches101 | Params.CompressFactor |
