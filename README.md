# MandelbrotCanvas in Dafny

A model of the drawing core of MandelbrotCanvas, a browser program that
renders the Mandelbrot set and its relatives into an HTML canvas, with
proofs about that model. The repository holds two generations of the same
core, and both are modelled.

- **mandelbrot.js**, the older single-file version, has these parts:
  - `setPixel` writes one pixel into the canvas's RGBA byte array (module `Pixels`).
  - `toInitialCaps` capitalises names for the drop-down lists (module `Names`).
  - The `colourMaps` object holds a 70-entry rainbow and a 200-entry "smooth" ramp (module `MandelbrotColourMaps`).
  - The three `escapeTimeCalculators` iterate z^2, z^3 and z^4 + z_0 (module `MandelbrotEscapeTime`).
  - The `Mandelbrot` panel holds the view state and its getters and setters. Its render pass paints the canvas pixel by pixel, under a timer token that a newer pass invalidates (module `MandelbrotView`).
- **etcalc.js** holds the newer escape-time calculators (module `EtCalc`):
  - There are ten formulas: the four powers, their four conjugates and two Collatz maps.
  - The quadratic skips points of the main cardioid and the period-2 bulb.
  - Results are `[count, lastVal, power]`, with an optional normalised modulus.
  - Each calculator's displayed equation comes from `getEquation`.
- **colourmaps.js** holds the newer colour maps (module `ColourMaps`):
  - Each `ColourMap` instance owns its palette and fills it in its constructor.
  - `makeColour` generates the palette lazily, rescales the count by a base-1.3 logarithm, and interpolates between neighbouring entries in normalised mode.

Shared modules:
- `Complex`: complex arithmetic, powers, orbits, and `EscapeIndex`, the least index at which an orbit leaves the circle.
- `Palette`: a colour table modelled as a JavaScript array that grows by index writes (`seq<Option<Colour>>`, `None` marks a hole), and what the two ramp loops leave in it.
- `External`: the page's helper functions (`Math.sqrt`, `Math.log`, `logBase`, `cos`, `cosh`, `sin`, `sinh`, `hsvToRgb`, `interpolateColour`). They are fields of a `Host` value passed in, since their code is not part of this model.
- `Wrappers`: `Option`.

How state is modelled:
- JavaScript numbers are reals.
- The canvas's `Uint8ClampedArray` is an `array<int>`. Every write goes through `ToUint8Clamp`, which clamps to [0, 255] and rounds half to even.
- Colour maps and the panel are classes whose methods change their fields in place.
- Every loop of the core is a `while` loop proved against a specification function (`Orbit`/`EscapeIndex`, `HueFill`, `RampFill`, `Caps`, `PixelPainted`). The one exception is the start-up `for…in` over the two colour maps (mandelbrot.js:321-323), which becomes two calls in `Registry.GenerateAll`.

## Model

| member | source | states |
|---|---|---|
| Pixels.ToUint8Clamp | mandelbrot.js:10-13 | The byte stored for a channel value lies in [0, 255]: 0 at or below 0, 255 at or above 255, and within 0.5 of the value in between |
| Pixels.ToUint8ClampKeepsBytes | mandelbrot.js:10-13 | A value that is already a byte is stored unchanged |
| Pixels.PixelIndexInBounds | mandelbrot.js:9 | For a pixel inside the image, the index (y*width*4)+(x*4) is 4*(y*width+x), and its four bytes lie inside the 4*width*height array |
| Pixels.SetPixel | mandelbrot.js:8-14 | Bytes i..i+3 of pixel (x, y) receive r, g, b, a clamped; every other byte is unchanged; a write that falls outside the array is ignored |
| Pixels.ImageData.constructor | mandelbrot.js:217 | An ImageData of width x height pixels whose data holds 4*width*height bytes |
| Names.ToLowerCase | mandelbrot.js:202 | Same length as the input, with each character mapped to lower case |
| Names.ToLowerCaseIdempotent | mandelbrot.js:202 | Lower-casing twice equals lower-casing once; a string without capitals is unchanged |
| Names.Split | mandelbrot.js:18 | `split(' ')` yields at least one word, and no word contains a space |
| Names.FirstSpace | mandelbrot.js:18 | The position of the first space: it holds a space and none comes before it |
| Names.JoinSplit | mandelbrot.js:18 | Joining the words of `split(' ')` with single spaces gives back the string |
| Names.JoinAppend | mandelbrot.js:18-23 | Joining one more word appends a space and that word |
| Names.DropLeadingSpaces | mandelbrot.js:19-21 | The result does not start with a space and is no longer than the input |
| Names.DropLeadingSpacesSuffix | mandelbrot.js:19-21 | The result is a suffix of the input, and everything dropped is a space (the empty words that `if (ret)` skips) |
| Names.Caps | mandelbrot.js:22 | Capitalisation keeps the length |
| Names.CapsOfWord | mandelbrot.js:22 | For a word without spaces, capitalising the first letter is `charAt(0).toUpperCase() + substring(1)` |
| Names.CapsAppendWord | mandelbrot.js:20-22 | Capitalising text + " " + word gives the capitalised text, a space, and the capitalised word |
| Names.DropLeadingAppend | mandelbrot.js:19-21 | Once non-space text has appeared, appending " " + word keeps the separator |
| Names.DropLeadingOfSpaces | mandelbrot.js:19-21 | After text made only of spaces, appending " " + word leaves just the word |
| Names.CapsStep | mandelbrot.js:19-22 | Appending " " + word to the input extends the result by a space, only if the result so far is non-empty, and then the capitalised word: one iteration of the `forEach` body |
| Names.BuiltFirst | mandelbrot.js:18-22 | After the first word, the result is that word capitalised |
| Names.BuiltNext | mandelbrot.js:19-22 | Each further word adds a space only if the result so far is non-empty, then the capitalised word |
| Names.BuiltAll | mandelbrot.js:18-24 | After all words, the result is the input without leading spaces, capitalised at the start and after every space |
| Names.ToInitialCaps | mandelbrot.js:16-25 | The returned string is the input with leading spaces dropped and each word's first letter upper-cased |
| Names.InitialCapsShape | mandelbrot.js:16-25 | For input not starting with a space, the output has the same length: upper case at position 0 and after each space, the input's character elsewhere |
| Palette.Store | mandelbrot.js:41 | `a[k] = v` on a JavaScript array: slot k holds v, the length grows to at least k+1, old slots are unchanged, new slots in between are holes |
| Palette.HueFillStep | mandelbrot.js:39-42 | One more iteration of the rainbow loop extends the fill from i to i+1 entries |
| Palette.HueFillContents | mandelbrot.js:37-43 | From an empty array the rainbow loop leaves exactly N entries, none a hole, all with alpha 255; over an array of at most N slots the result does not depend on what the array held |
| Palette.RampFillStep | mandelbrot.js:69-92 | One iteration's three writes at i, i+N and i+2N, with n = max*i/N, give the fill after i+1 iterations |
| Palette.RampFillContents | mandelbrot.js:67-93 | From an empty array the ramp loop leaves 5N entries, no holes, alpha 255, and entry k < 3N is [max - max*k/N, max*k/N, 0, 255] |
| Palette.RampFillIdempotent | mandelbrot.js:67-93 | Running the ramp loop again over its own result changes nothing |
| Palette.AmountBounds | mandelbrot.js:70 | For i < N, the amount n = max*i/N lies in [0, max] |
| Palette.RampAsWrittenOutOfRange | mandelbrot.js:69-91 | The loop as written leaves 5N entries, and entry 2N is [-max, 2max, 0, 255], outside [0, max] |
| Palette.IntendedRamp | mandelbrot.js:71-91 | The three transitions the comments describe (N entries each: red to green, green to blue, blue to red) have 3N entries, no holes, alpha 255, and every channel in [0, max] |
| Palette.ModSucc | colourmaps.js:42-43 | (floor(n)+1) mod L is the entry after floor(n) mod L, cyclically |
| Palette.ModShift | mandelbrot.js:50 | n + L indexes the same entry as n, modulo L |
| MandelbrotColourMaps.ColourMap.constructor | mandelbrot.js:34-36 | A map as the object literal declares it: the gradation count (70 or 40) and an empty palette |
| MandelbrotColourMaps.ColourMap.GenColourMap | mandelbrot.js:37-43 | The palette becomes the rainbow fill or the smooth-ramp fill of its previous contents |
| MandelbrotColourMaps.ColourMap.GenRainbow | mandelbrot.js:37-43 | The loop leaves HueFill with N = 70, s = v = 1 |
| MandelbrotColourMaps.ColourMap.GenSmooth | mandelbrot.js:67-93 | The loop runs 3N = 120 iterations and leaves RampFill with N = 40, max = 255 |
| MandelbrotColourMaps.ColourMap.RampRound | mandelbrot.js:70-91 | One iteration's three writes extend the ramp fill by one iteration |
| MandelbrotColourMaps.ColourMap.MakeColour | mandelbrot.js:44-51 | Black [0,0,0,255] when n == maxIter; otherwise the entry at n mod length, undefined for an empty palette or a hole |
| MandelbrotColourMaps.GeneratedContents | mandelbrot.js:37-93 | A generated palette has 70 (rainbow) or 200 (smooth) entries, no holes, alpha 255, and the smooth entries k < 120 are [255 - 255k/40, 255k/40, 0, 255] |
| MandelbrotColourMaps.GenerateIdempotent | mandelbrot.js:321-323 | Generating a palette a second time changes nothing |
| MandelbrotColourMaps.MakeColourOnPalette | mandelbrot.js:44-51 | Over any non-empty palette without holes whose entries have alpha 255 (a generated one, or the corrected ramp), every escape time other than maxIter gets one of the palette's entries, with alpha 255 |
| MandelbrotColourMaps.MakeColourPeriodic | mandelbrot.js:49-50 | Over any non-empty palette, colours repeat with the palette length as period |
| MandelbrotColourMaps.Registry.constructor | mandelbrot.js:30-95 | Two distinct fresh maps, rainbow and smooth, with empty palettes |
| MandelbrotColourMaps.Registry.Find | mandelbrot.js:209-210 | `colourMaps[key]` is defined exactly for "rainbow" and "smooth", and gives that map |
| MandelbrotColourMaps.Registry.GenerateAll | mandelbrot.js:321-323 | The start-up loop generates both palettes |
| MandelbrotEscapeTime.CalcNamedKey | mandelbrot.js:114-191 | Each calculator is found under its own key, and only under that key |
| MandelbrotEscapeTime.CountSteps | mandelbrot.js:128-138 | The shared `for` loop returns 0 when maxIter <= 0, and otherwise the least i < maxIter whose orbit point has rl^2 + im^2 > 4, or maxIter |
| MandelbrotEscapeTime.EscapeTime | mandelbrot.js:125-189 | Each escapeTime returns the escape index of z -> z^d + (x, y) from (x, y) |
| MandelbrotEscapeTime.EscapeTimeInRange | mandelbrot.js:128-138 | The result lies in [0, maxIter], and is 0 when maxIter <= 0 |
| MandelbrotEscapeTime.EscapeTimeIsLeastEscape | mandelbrot.js:128-138 | A result below maxIter is an index whose point has left the circle of radius 2 with no earlier one; the result is maxIter exactly when no point below maxIter leaves |
| MandelbrotEscapeTime.EscapingStartGivesZero | mandelbrot.js:128-133 | A start point outside the circle of radius 2 gives 0 |
| MandelbrotEscapeTime.StepIsPower | mandelbrot.js:134-135 | Each loop body computes z^d + (x, y), for d = 2, 3, 4 |
| MandelbrotEscapeTime.AgreesWithEtCalc | mandelbrot.js:124-190 | With maxIter >= 1, the older calculators count as the newer ones do with radius 2, unnormalised, with the start point as the constant, away from the cardioid short-cut |
| MandelbrotView.ZoomInThenOutRestores | mandelbrot.js:273-280 | Zooming in by f and then out by f, in either order, restores the scale |
| MandelbrotView.Mandelbrot.constructor | mandelbrot.js:200-221 | The calculator is the one under the lower-cased name; the colour map is looked up only if the calculator was found. With both found: centre 0, scale 5/min(width, height), maxIter 100 |
| MandelbrotView.Mandelbrot.SetCentre | mandelbrot.js:262-265 | The centre becomes (rl, im); nothing else changes |
| MandelbrotView.Mandelbrot.SetScale | mandelbrot.js:269-272 | The scale becomes newScale and is returned; nothing else changes |
| MandelbrotView.Mandelbrot.ZoomBy | mandelbrot.js:273-276 | The scale is multiplied by factor and returned; nothing else changes |
| MandelbrotView.Mandelbrot.ZoomInBy | mandelbrot.js:277-279 | The scale is multiplied by 1/factor and returned; nothing else changes |
| MandelbrotView.Mandelbrot.ZoomOutBy | mandelbrot.js:280 | The same as zoomBy |
| MandelbrotView.Mandelbrot.SetMaxIter | mandelbrot.js:284-286 | maxIter becomes the new value; nothing else changes |
| MandelbrotView.Mandelbrot.SetColourMapName | mandelbrot.js:290-297 | An unknown name changes nothing; a known one sets the name as given and the map under its lower-case form, and nothing else |
| MandelbrotView.Mandelbrot.SetFractalType | mandelbrot.js:301-308 | An unknown name changes nothing; a known one sets the name as given and the calculator under its lower-case form, and nothing else |
| MandelbrotView.Mandelbrot.Stop | mandelbrot.js:255-258 | The pending token is forgotten; nothing else changes |
| MandelbrotView.Mandelbrot.Update | mandelbrot.js:230-254 | After stop, the new timer's id becomes the current token; nothing else changes |
| MandelbrotView.Mandelbrot.UpdatePass | mandelbrot.js:232-249 | With a current token, the pass completes and every pixel holds its escape-time colour, clamped. With a stale token on a non-empty image, no byte changes. Only imageData changes in the panel |
| MandelbrotView.Mandelbrot.PaintRow | mandelbrot.js:236-246 | The inner loop paints row r left to right, or stops at its first pixel if the token is stale, writing nothing. Pixels painted before stay painted, and every byte from row r + 1 on keeps its old value |
| MandelbrotView.Mandelbrot.PaintPixel | mandelbrot.js:244 | The write of one pixel: pixel (c, r) holds its colour, clamped, pixels painted before stay painted, and every byte outside the pixel's four keeps its old value |
| MandelbrotView.Mandelbrot.RunScheduledPass | mandelbrot.js:251-253 | The timer callback passes the token current when it runs, so its pass always completes and paints every pixel |
| MandelbrotView.PixelIndexOrder | mandelbrot.js:235-236 | Pixels painted earlier in row-major order have smaller byte indexes, and different pixels' blocks do not overlap |
| MandelbrotView.EveryByteBelongsToAPixel | mandelbrot.js:9 | Byte k of a 4*w*h array is channel k mod 4 of pixel (k/4 mod w, k/4 div w) |
| MandelbrotView.EveryBytePainted | mandelbrot.js:235-248 | After a completed pass, byte k holds channel k mod 4 of its pixel's colour, clamped |
| MandelbrotView.Mandelbrot.ColToX | mandelbrot.js:222-225 | The middle column maps to the centre's real part; with a non-zero scale, the column is recovered from the real part as (x - centreRl)/scale + width/2 |
| MandelbrotView.Mandelbrot.RowToY | mandelbrot.js:226-229 | The middle row maps to the centre's imaginary part; with a non-zero scale, the row is recovered as (centreIm - y)/scale + height/2, so the axis is inverted |
| MandelbrotView.CentreOfImage | mandelbrot.js:222-229 | The image's middle pixel maps to the view's centre |
| MandelbrotView.TransformsAreMonotonic | mandelbrot.js:222-229 | With a positive scale, x grows with the column, and y falls as the row grows (the inverted canvas axis) |
| EtCalc.EscapeLoop | etcalc.js:76-87 | The `for(;;)` loop stops at the first point outside the radius, reporting its index and squared modulus, or gives up with maxIter once maxIter steps are taken |
| EtCalc.Iterate | etcalc.js:62-93 | Each iterate function returns the expected [count, lastVal, power]: the cardioid and bulb short-cut for the quadratic in Mandelbrot mode, otherwise the escape result of its step |
| EtCalc.EscapeResultMeaning | etcalc.js:76-92 | The count is in [0, maxIter] and is the least escaping index; lastVal is sqrt of the escaping point's squared modulus when normalised, else 0 |
| EtCalc.CountInRange | etcalc.js:62-375 | Every calculator's count lies in [0, maxIter] |
| EtCalc.CountIsLeastEscape | etcalc.js:76-87 | Away from the short-cut, the count is the least index whose orbit point is outside the radius, if there is one below maxIter |
| EtCalc.EscapingStartGivesZero | etcalc.js:76-80 | A start point outside the radius gives count 0 |
| EtCalc.CardioidShortCircuit | etcalc.js:64-74 | In Mandelbrot mode, cardioid and bulb points answer [maxIter, 0, 2] without iterating; in Julia mode the quadratic always iterates |
| EtCalc.LastValue | etcalc.js:89-92 | lastVal is 0 unless normalised and escaped; then it is sqrt(rl^2 + im^2) of the escaping point, whose square is that modulus wherever sqrt is a square root |
| EtCalc.PowerIsConstant | etcalc.js:62-375 | The third component is 2, 3, 4, 5 for the powers and their conjugates, and 5 for both Collatz maps |
| EtCalc.CollatzIgnoresConstant | etcalc.js:313-375 | The Collatz results do not depend on (crl, cim) |
| EtCalc.PowerStepsAreExpansions | etcalc.js:81-82 | The hand-expanded quadratic, cubic, quartic and quintic steps equal the binomial expansions in their comments, plus the constant |
| EtCalc.ConjugateStepsNegateImaginary | etcalc.js:195-309 | Each conjugate step is its power's step with the imaginary part negated first |
| EtCalc.PowerStepsArePowers | etcalc.js:59-191 | The power steps compute z^d + c |
| EtCalc.ConjugateStepsArePowersOfConjugate | etcalc.js:195-309 | The conjugate steps compute conj(z)^d + c |
| EtCalc.Collatz1Step | etcalc.js:325-328 | The real-arithmetic step equals the complex expression (1 + 4z)/4 - (1 + 2z)·cos(πz), with cos(πz) = cos(π rl)cosh(π im) - i sin(π rl)sinh(π im) |
| EtCalc.Collatz2Step | etcalc.js:358-361 | The real-arithmetic step equals the complex expression (2 + 7z)/4 - (2 + 5z)·cos(πz) |
| EtCalc.CollatzAsWrittenOnIntegers | etcalc.js:325-328 | Where the host's cos, cosh and sinh are exact, the steps as written send the integer n to -n - 0.75 or 3n + 1.25 (variant 1), and to -1.5 - 13n/4 or 2.5 + 27n/4 (variant 2), for even or odd n. At every integer this differs from the map the equation displays |
| EtCalc.IntendedCollatzOnIntegers | etcalc.js:315 | The displayed maps 1/4(1 + 4z - (1 + 2z)cos(πz)) and 1/4(2 + 7z - (2 + 5z)cos(πz)) send an even integer n to n/2, and an odd one to (3n + 1)/2 or 3n + 1: they extend the Collatz function |
| EtCalc.CalculatorFor | etcalc.js:59-374 | The calculator built for a formula carries that formula, and its autoAddFinalTerm flag is true exactly for the eight non-Collatz formulas |
| EtCalc.FormulaIndex | etcalc.js:48-376 | Each formula's position in the escapeTimeCalculators array holds that formula |
| EtCalc.CalculatorsListEachFormulaOnce | etcalc.js:48-376 | The array has ten calculators; every formula's calculator is in it, and no formula appears twice |
| EtCalc.GetEquation | etcalc.js:27-33 | The equation starts with "z<sub>n+1</sub> = " and the calculator's equation, and ends with " + C" (Julia) or " + z<sub>0</sub>" exactly when autoAddFinalTerm is set |
| EtCalc.EquationDependsOnMode | etcalc.js:27-33 | The equation differs between Julia and Mandelbrot mode exactly when the final term is added |
| EtCalc.FinalTermShownExactlyWhenConstantRead | etcalc.js:59-375 | Every calculator except the two Collatz maps adds the final term, so an equation shows "+ C" exactly when its function reads the constant |
| Complex.PowSucc | etcalc.js:96-100 | z^(d+1) = z^d * z |
| Complex.Powers | etcalc.js:96-100 | z^2 to z^5 are the expanded polynomials in rl and im |
| Complex.EscapeIndex | etcalc.js:76-87 | The escape index is at most the bound, its point has escaped if it is below the bound, and no earlier point has |
| Complex.EscapeIndexUnique | etcalc.js:76-87 | Any index with those properties is the escape index |
| Complex.EscapeIndexAtStart | etcalc.js:77-80 | A start point outside the radius has escape index 0 |
| ColourMaps.ColourMap.constructor | colourmaps.js:10-16 | A fresh, empty palette for this instance, generated at once when the class defines genColourMap; the name is 'rainbow', 'RGB', or none for the bare prototype instances |
| ColourMaps.ColourMap.GenColourMap | colourmaps.js:61-67 | The palette becomes the rainbow fill or the RGB ramp fill of its previous contents |
| ColourMaps.ColourMap.GenRainbow | colourmaps.js:61-67 | The loop leaves HueFill with N = 10, s = 0.6, v = 0.8 |
| ColourMaps.ColourMap.GenRGB | colourmaps.js:79-105 | The loop runs 3N = 15 iterations and leaves RampFill with N = 5, max = 128 |
| ColourMaps.ColourMap.RampRound | colourmaps.js:82-103 | One iteration's three writes extend the ramp fill by one iteration |
| ColourMaps.ColourMap.MakeColour | colourmaps.js:23-49 | Black, palette untouched, when n === maxIter. Otherwise an empty palette is generated first, and the colour is Lookup of the rescaled count. The palette stays empty or fully generated |
| ColourMaps.GeneratedContents | colourmaps.js:61-105 | A generated palette has 10 (rainbow) or 25 (RGB) entries, no holes, alpha 255, and the RGB entries k < 15 are [128 - 128k/5, 128k/5, 0, 255] |
| ColourMaps.GenerateIdempotent | colourmaps.js:29-31 | Generating again over a generated palette changes nothing |
| ColourMaps.NormalisedCount | colourmaps.js:33-36 | Math.max(0, n + 1 - log(log lastVal)/log power): the result is at least 0 and at least that value, and equals one of them |
| ColourMaps.Rescaled | colourmaps.js:33-38 | Math.max(0, logBase(1.3, count)) of the plain or normalised count: at least 0 and at least the logarithm, and equal to one of them |
| ColourMaps.Lookup | colourmaps.js:23-48 | Black when n == maxIter; without normalisation, otherwise, one of the palette's entries |
| ColourMaps.RescaledIndexInRange | colourmaps.js:35-44 | The rescaled count is >= 0, floor(n) mod length indexes the palette, and the interpolation fraction n - floor(n) is in [0, 1) |
| ColourMaps.LookupPlainPicksEntry | colourmaps.js:38-48 | Without normalisation the colour is an entry of the palette, and lastVal and power play no part |
| ColourMaps.LookupNormalisedInterpolates | colourmaps.js:33-46 | With normalisation the colour interpolates from the entry at floor(n) to the next entry, cyclically, by n - floor(n) |
| ColourMaps.LookupInSetIsBlack | colourmaps.js:25-27 | Points in the set are black, whatever the palette |
| ColourMaps.NewColourMaps | colourmaps.js:112-115 | The colourMaps array: a rainbow map and an RGB map, distinct and fresh, each with its own generated palette |

## Left out

- scripts.js (the page's controls, mouse handling and the Julia-set panel) is not part of this model.
- The DOM and jQuery wiring, `debug`, `getContext`, `getImageData` and `putImageData` are left out. The canvas's pixels are the `ImageData` passed to a pass, and the final `putImageData` is not modelled.
- `setTimeout` and `clearTimeout` are left out. A timer is only its id (the panel's token), so the asynchronous interleaving of passes is not modelled. A pass is a method run with the token it was handed.
- IEEE floating point is left out: numbers are exact reals, with no NaN, infinities, rounding or overflow. This matters for `5 / Math.min(width, height)` on an empty canvas and for `Math.log` of non-positive values.
- `Math.sqrt`, `Math.log`, `logBase`, `Math.cos`/`cosh`/`sin`/`sinh`, `hsvToRgb` and `interpolateColour` are uninterpreted parameters (`External.Host`). Their code is not part of this model. The property about `lastVal` holds wherever `sqrt` is a square root.
- Names.ToLowerCase: only ASCII letters change case. JavaScript's full Unicode case mapping is not modelled.
- Names.ToInitialCaps / Names.Caps: upper-casing (`Upper`) maps only the ASCII letters a-z. JavaScript's `toUpperCase` (mandelbrot.js:22) uses full Unicode case mapping, which can lengthen a word ('ß' becomes "SS"). The length and character-by-character claims of Names.Caps, Names.CapsOfWord and Names.InitialCapsShape hold only for names whose first letters upper-case to a single character.
- MandelbrotColourMaps.Registry.Find and MandelbrotEscapeTime.CalcNamed: the JavaScript `in` test also accepts keys inherited from `Object.prototype` (of the names that survive lower-casing, "constructor" and "__proto__"). The model treats those names as unknown.
- MandelbrotView.Mandelbrot.constructor: requires a canvas at least one pixel wide and high, because 5/0 is not a real number. If a name is unknown, the source returns early and leaves the other fields undefined. The model gives them placeholders and makes every other method require both names to be known (`Constructed()`).
- MandelbrotView.Mandelbrot.ZoomInBy: requires factor != 0. JavaScript would scale by Infinity.
- MandelbrotView.Mandelbrot.UpdatePass: requires the colour map's palette to be non-empty and without holes (`Ready`), as the start-up generation leaves it (mandelbrot.js:321-323). Over an empty palette, `makeColour` returns undefined (mandelbrot.js:50). A pass whose token is current would then throw a TypeError at `colour[0]` (mandelbrot.js:244) at the first pixel whose escape time differs from maxIter, before `setPixel` is reached. Black for points in the set does not read the palette (mandelbrot.js:46-48), so a view that lies wholly in the set completes and paints every pixel black. `Ready` excludes that run too, and the model does not capture the exception.
- MandelbrotColourMaps.ColourMap.MakeColour: n is a natural number, as every escape time is.
- ColourMaps.ColourMap.MakeColour: requires that a bare `ColourMap` (no `genColourMap`) is only asked for black, since anything else throws a TypeError. It also requires log(power) != 0 in normalised mode.
- Aliasing between palette arrays is not modelled. Palettes are values held in a field, which matches colourmaps.js's per-instance arrays; the shared-prototype array its FIXME comment mentions is not used by the code.
- The getters (`getCentre`, `getScale`, `getMaxIter`, `getColourMapName`, `getFractalType`, `getName`, `getIterFunc`) have no contracts of their own. Each setter's contract states what the matching getter returns.
- The Collatz iterate functions never add the constant (crl, cim). The model follows the code, and EtCalc.CollatzIgnoresConstant states this.

## Findings

| source | as written | input that shows it | evidently intended | confidence | as-written member | corrected member |
|---|---|---|---|---|---|---|
| etcalc.js:325-328 | Collatz variant 1 computes (1 + 4z)/4 - (1 + 2z)cos(πz), variant 2 (etcalc.js:358-361) computes (2 + 7z)/4 - (2 + 5z)cos(πz). The quarter divides only the first term, although the comments and the displayed equations (etcalc.js:311, 315, 344, 348) put it in front of the whole expression | z = 0, with cos 0 = cosh 0 = 1 and sinh 0 = 0: variant 1 gives -0.75 and variant 2 gives -1.5, where the displayed maps give 0 (the Collatz function's value at 0) | The displayed maps 1/4(1 + 4z - (1 + 2z)cos(πz)) and 1/4(2 + 7z - (2 + 5z)cos(πz)), which send an even n to n/2 and an odd n to (3n + 1)/2 or 3n + 1 | medium, not executed | EtCalc.CollatzAsWrittenOnIntegers | EtCalc.IntendedCollatzOnIntegers |
| mandelbrot.js:69-91 | The ramp loop (also colourmaps.js, lines 81-103) runs i from 0 to 3N and writes slots i, i+N and i+2N. The palette ends with 5N entries, and only slots 0..N lie within [0, max]; slots N+1..5N-1 do not. Slots N+1..3N-1 keep the red-to-green formula with n > max, so red goes negative and green exceeds max; slots 3N..5N-1 take the green-to-blue and blue-to-red formulas with amounts in [2max, 3max), so green or blue goes negative | N = 40, max = 255: slot 80 is [-255, 510, 0, 255]; N = 5, max = 128: slot 10 is [-128, 256, 0, 255] | The loop runs N times, giving three transitions of N entries each (red to green, green to blue, blue to red), every channel within [0, max] | medium, not executed | Palette.RampAsWrittenOutOfRange | Palette.IntendedRamp |

The colour-map classes keep the loop as the source writes it, because the palette's length decides which entry each escape time selects. What happens downstream is proved for any palette that is non-empty, without holes and opaque, not just for the as-written one: `MandelbrotColourMaps.MakeColourOnPalette` and `MakeColourPeriodic`, the render pass (its `Ready` precondition), and colourmaps.js's `Lookup` lemmas. Palette.IntendedRamp states that the corrected ramp meets those conditions, so these results hold for it as well.

Likewise, `EtCalc.Iterate` iterates the Collatz steps as written, because those are the orbits the page draws. The displayed maps are `EtCalc.IntendedCollatz1` and `EtCalc.IntendedCollatz2`. `EscapeResultMeaning` and `LastValue` are stated for any step function, so the least-escape count and the last value hold for the corrected steps as well. `CountIsLeastEscape` is stated for the calculators' own steps only.
