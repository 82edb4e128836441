# canvas-heatmap, modelled in Dafny

canvas-heatmap draws a heatmap onto a 2d canvas in three stages:

1. It stamps radial "points" of white with varying alpha onto the canvas (`drawPoint`, `drawPointGrid`).
2. It colourises the result: each pixel's alpha byte picks an RGBA entry of a 256-entry gradient table (`colorize`).
3. Optionally it makes every pixel opaque (`makeOpaque`).

The gradient table is built by `generateGradient` from colour stops. The stops come either as an offset → colour object or as a list of colours spaced evenly. Building the table takes these steps:

- Keys that parse to NaN are dropped.
- The remaining stops are sorted and their offsets scaled to 0..255.
- A transparent black stop is added at either end the stops do not reach.
- A pair of cursors walks the stops while level `i` runs 0..255.
- Each of the table's 4 × 256 bytes becomes `clamp(round((c1·d2 + c2·d1)/(d1+d2)))` of the two bracketing stops (except in the duplicate-offset case below).

The project has five modules:

- `JsNumber` (`js_number.dfy`): the JavaScript number operations the code relies on.
  - `Math.round` is `(x + 0.5).Floor`.
  - The clamp is `Math.max(0, Math.min(255, n))`.
  - A store into a `Uint8ClampedArray` rounds half to even.
- `ColorStops` (`color_stops.dfy`): the two shapes of a gradient and the normalisation of its stops. The sort is modelled as a stable insertion sort, with sortedness, permutation and stability proved.
- `GradientGenerator` (`gradient_generator.dfy`) holds two things:
  - the table as a specification (`Bracket`, `Entry`, `TableOf`, `GradientTable`);
  - the imperative generator that is proved equal to it (`GenerateGradient` → `NormalizeStops`, `RescaleOffsets`, `FillTable` → `Advance`, `WriteEntry`). `FillTable` fills a 1024-byte array with the two forward-only cursors.
- `Heatmap` (`heatmap.dfy`):
  - the constructor's dispatch on its arguments;
  - the class `HeatmapGenerator`, whose surface is a byte array it owns and whose canvas calls are a recorded trace;
  - the grid of point calls;
  - the `colorize` and `makeOpaque` passes over the surface's bytes.
- `Wrappers` (`wrappers.dfy`): `Option` and `Result`.

Three behaviours of the code worth noting:

- Only keys that parse to NaN are dropped. Offsets outside 0..1 are kept and take part in the sort, the scaling and the interpolation.
- A channel is `clamp(round(x))`, not `round(clamp(x))`.
- When both bracketing stops lie exactly on level `i` (two stops at one offset), the code writes all four channel means into byte `4i`. So byte `4i` ends up holding the alpha mean, stored with round-half-to-even, and bytes `4i+1..4i+3` stay 0. The model does the same (`DuplicateOffsetQuirk`). This can only happen at level 0, with the first two stops both at offset 0: the low cursor only ever moves onto a stop strictly below `i`, so elsewhere two stops at one offset (keys "0.2" and "0.20", both at level 51, say) never bracket a level together (`EntryOnDuplicateOffset`).

## Model

| member | source | states |
|---|---|---|
| JsNumber.Round | src/gradientGenerator.ts:209 | `Math.round(x)` is the integer r with r ≤ x + 0.5 < r + 1 |
| JsNumber.Abs | src/gradientGenerator.ts:127-129 | `Math.abs` gives a non-negative distance equal to the value or its negation |
| JsNumber.ClampByte | src/gradientGenerator.ts:209 | the clamp keeps 0..255 and sends values below to 0 and above to 255 |
| JsNumber.Level | src/gradientGenerator.ts:209 | a channel becomes the nearest byte, halves going up: 0 below −0.5, 255 from 254.5 on, and otherwise within 0.5 of the value |
| JsNumber.ToUint8Clamp | src/gradientGenerator.ts:143-152 | a store into the table clamps to 0..255 and lands within 0.5 of the stored value, a tie going to the even byte |
| JsNumber.StoreByte | src/gradientGenerator.ts:154-185 | storing a value that already is a byte keeps it |
| JsNumber.StoreRoundsHalfToEven | src/gradientGenerator.ts:143-152 | the store rounds 2.5 to 2 where `Math.round` gives 3 |
| ColorStops.ListToMap | src/gradientGenerator.ts:33-35 | a list of n ≠ 1 colours becomes n entries; colour i keeps its colour and gets key i/(n-1), so the keys run from 0 to 1 |
| ColorStops.Rescale | src/gradientGenerator.ts:67-72 | a stop keeps the colour's red, green and blue and scales its alpha ×255, so alpha 0..1 becomes 0..255 and dividing by 255 gives it back |
| ColorStops.Prep | src/gradientGenerator.ts:53-74 | every kept stop comes from an entry with that key, alpha scaled ×255; nothing is kept exactly when every key is NaN |
| ColorStops.PrepAllKeyed | src/gradientGenerator.ts:53-74 | with no NaN key, every entry is kept, in order |
| ColorStops.PrepOne | src/gradientGenerator.ts:53-74 | a single entry becomes its stop, alpha scaled ×255, exactly when its key parses, and nothing otherwise |
| ColorStops.PrepAppend | src/gradientGenerator.ts:53-74 | the filter works entry by entry: the stops of a concatenation are those of each part, in order |
| ColorStops.PrepCons | src/gradientGenerator.ts:53-74 | the first entry contributes its stop, when its key parses, ahead of the rest's stops |
| ColorStops.Insert | src/gradientGenerator.ts:80 | inserting into sorted stops keeps them sorted and adds exactly that stop |
| ColorStops.SortByOffset | src/gradientGenerator.ts:80 | the sort's result is ascending by offset and a permutation of its input |
| ColorStops.AtOffsetAppend | src/gradientGenerator.ts:80 | the stops at one offset of a concatenation are those of each part, in order |
| ColorStops.AtOffsetNone | src/gradientGenerator.ts:80 | no stop sits at an offset below all offsets |
| ColorStops.InsertAtOffset | src/gradientGenerator.ts:80 | inserting a stop puts it after the stops already at its offset |
| ColorStops.InsertFrontAtOffset | src/gradientGenerator.ts:80 | a stop below all others goes in front, after no stop at its own offset |
| ColorStops.ConsAtOffset | src/gradientGenerator.ts:80 | a common first stop keeps the relation between two lists' stops at an offset |
| ColorStops.SortIsStable | src/gradientGenerator.ts:80 | the sort is stable: stops with equal offsets keep their relative order |
| ColorStops.InsertLast | src/gradientGenerator.ts:80 | a stop no smaller than all others is inserted at the end |
| ColorStops.SortSortedIsIdentity | src/gradientGenerator.ts:80 | sorting sorted stops changes nothing |
| ColorStops.ScaleOffsets | src/gradientGenerator.ts:84-86 | scaling keeps the number of stops |
| ColorStops.ScaleKeepsOrder | src/gradientGenerator.ts:84-86 | scaling by 255 keeps the stops ascending, and strictly ascending ones strictly so |
| ColorStops.AddBoundaries | src/gradientGenerator.ts:89-100 | after the boundary step the first offset is ≤ 0 and the last ≥ 255 |
| ColorStops.AddBoundariesShape | src/gradientGenerator.ts:89-100 | the step adds a transparent black stop at 0 exactly when the first offset is > 0, and one at 255 exactly when the last is < 255, and changes nothing else |
| ColorStops.AddBoundariesSorted | src/gradientGenerator.ts:89-100 | the boundary stops keep sorted stops sorted |
| ColorStops.SortedCons | src/gradientGenerator.ts:89-94 | a stop put in front of sorted stops it does not exceed keeps them sorted |
| ColorStops.SortedSnoc | src/gradientGenerator.ts:95-100 | a stop put after sorted stops it is not below keeps them sorted |
| ColorStops.AddBoundariesWhenCovered | src/gradientGenerator.ts:89-100 | when the stops already reach 0 and 255 nothing is added |
| ColorStops.Normalize | src/gradientGenerator.ts:80-102 | the normalised stops are at least two, ascending, starting at or below 0 and ending at or above 255 |
| ColorStops.NormalizeStartsTransparent | src/gradientGenerator.ts:89-94 | when every offset is > 0, the first stop is transparent black at 0 and the next is above 0 |
| ColorStops.NormalizeEndsTransparent | src/gradientGenerator.ts:95-100 | when every offset is < 1, the last stop is transparent black at 255 and all other stops are below 255 |
| ColorStops.ScaledBelowTop | src/gradientGenerator.ts:80-86 | offsets below 1 stay below 255 after the sort and the scaling, and none is lost |
| ColorStops.BoundariesEndTransparent | src/gradientGenerator.ts:95-100 | stops all below 255 get transparent black appended at 255 and keep every other stop below 255 |
| ColorStops.ListStops | src/gradientGenerator.ts:33-36 | a list of n > 1 colours gives n stops in list order at i/(n-1), already ascending |
| ColorStops.NormalizeCovered | src/gradientGenerator.ts:80-100 | sorted stops that already reach 0 and 1 are only scaled: no boundary stop is added |
| ColorStops.NormalizeEvenlySpaced | src/gradientGenerator.ts:80-100 | stops at i/(n-1) in list order normalise to n stops, stop i at 255·i/(n-1) with its own colour |
| ColorStops.EvenlySpacedList | src/gradientGenerator.ts:33-36 | a list of n > 1 colours normalises to exactly n stops with stop i at 255·i/(n-1) with colour i, and no boundary stop |
| GradientGenerator.Index | src/gradientGenerator.ts:154-185 | red, green, blue and alpha are bytes 0..3 of an entry |
| GradientGenerator.WeightedMean | src/gradientGenerator.ts:199-206 | two equal channels weighted over the whole distance give that channel |
| GradientGenerator.CalcChannel | src/gradientGenerator.ts:191-210 | at distance 0 from a stop, `calcChannel` is that stop's channel rounded and clamped |
| GradientGenerator.FirstReaching | src/gradientGenerator.ts:117-120 | the cursor stops at the first stop, from its start, whose offset reaches i |
| GradientGenerator.Bracket | src/gradientGenerator.ts:105-124 | the two stops used for level i bracket it: `stops[hi-1].offset ≤ i ≤ stops[hi].offset`, and every stop at index 1..hi-1 is below i (stop 0 may sit on i = 0) |
| GradientGenerator.BracketUnique | src/gradientGenerator.ts:117-120 | any index that reaches i with all earlier stops below i is the bracket |
| GradientGenerator.BracketMonotone | src/gradientGenerator.ts:105-124 | the bracket never moves back as i grows |
| GradientGenerator.TableOf | src/gradientGenerator.ts:40 | the table is 1024 bytes |
| GradientGenerator.Entry | src/gradientGenerator.ts:104-186 | an entry is four bytes; when both bracketing stops share an offset its bytes 1..3 stay 0, since all four means go to byte 0 |
| GradientGenerator.TableAt | src/gradientGenerator.ts:134-185 | byte 4i + c of the table is channel c of entry i |
| GradientGenerator.Blank | src/gradientGenerator.ts:40 | a fresh table is 1024 zero bytes |
| GradientGenerator.GradientTable | src/gradientGenerator.ts:18-37 | the table of any gradient is 1024 bytes, each in 0..255 by its type |
| GradientGenerator.GenerateGradient | src/gradientGenerator.ts:18-21 | the generator returns the table of the given stops, or of the default stops when none are given |
| GradientGenerator.GenerateTable | src/gradientGenerator.ts:23-77 | the list → object dispatch and the blank result for no usable stop compute exactly the specified table |
| GradientGenerator.NormalizeStops | src/gradientGenerator.ts:80-100 | the in-place sort, the scaling `forEach` and the `unshift`/`push` compute the normalised stops |
| GradientGenerator.RescaleOffsets | src/gradientGenerator.ts:84-86 | the scaling loop computes every offset ×255 |
| GradientGenerator.FillTable | src/gradientGenerator.ts:104-187 | the cursor loop over a zeroed 1024-byte array leaves exactly the specified table |
| GradientGenerator.EntryStep | src/gradientGenerator.ts:104-187 | writing entry i behind the finished first i entries extends the finished prefix by one entry and leaves the rest zero |
| GradientGenerator.Advance | src/gradientGenerator.ts:117-120 | the cursors only move forward, stay one apart, stay within the stops and stop at the bracket of i |
| GradientGenerator.WriteEntry | src/gradientGenerator.ts:134-186 | writing entry i sets its four bytes to the specified entry and leaves every other byte as it was |
| GradientGenerator.WeightedMeanBetween | src/gradientGenerator.ts:199-206 | a weighted mean with non-negative weights lies between its two values |
| GradientGenerator.CalcChannelBetween | src/gradientGenerator.ts:191-210 | `calcChannel` lies between the rounded, clamped channels of its two stops |
| GradientGenerator.EntryChannel | src/gradientGenerator.ts:127-185 | when the bracketing offsets differ, every byte of entry i is `calcChannel` of that channel with distances ≥ 0 and total > 0 |
| GradientGenerator.EntryBetweenStops | src/gradientGenerator.ts:127-185 | every channel of entry i lies between the bracketing stops' levels of that channel |
| GradientGenerator.WeightedMeanAtStop | src/gradientGenerator.ts:199-206 | at distance 0 from one stop the mean is that stop's value |
| GradientGenerator.EntryOnFollowingStop | src/gradientGenerator.ts:127-185 | when i equals the following stop's offset, the entry is that stop's channels, rounded and clamped |
| GradientGenerator.EntryOnPrecedingStop | src/gradientGenerator.ts:127-185 | when i equals the preceding stop's offset, the entry is that stop's channels, rounded and clamped |
| GradientGenerator.SameLevels | src/gradientGenerator.ts:154-185 | an entry whose every channel is a stop's level equals that stop's levels |
| GradientGenerator.EntryAtStop | src/gradientGenerator.ts:127-185 | with distinct offsets, the entry at any stop's offset is that stop's channels, rounded and clamped |
| GradientGenerator.NoUsableStopIsBlank | src/gradientGenerator.ts:33-77 | when no key survives the NaN filter (or the list is empty) the table is all zeros |
| GradientGenerator.KeyedEntry | src/gradientGenerator.ts:40-212 | entry i of an object's table is entry i of its normalised stops |
| GradientGenerator.TransparentStart | src/gradientGenerator.ts:89-185 | when every offset is > 0, entry 0 is (0, 0, 0, 0) |
| GradientGenerator.TransparentEnd | src/gradientGenerator.ts:95-185 | when every offset is < 1, entry 255 is (0, 0, 0, 0) |
| GradientGenerator.LastEntryTransparent | src/gradientGenerator.ts:95-185 | prepared stops all below 1 give entry 255 = (0, 0, 0, 0) once normalised |
| GradientGenerator.TransparentTail | src/gradientGenerator.ts:117-185 | well-formed stops ending in transparent black at 255, with every stop between the first and the last below 255, give entry 255 = (0, 0, 0, 0) |
| GradientGenerator.SingleColorIsMap | src/gradientGenerator.ts:27-31 | by definition of the dispatch, a one-colour list gives the same table as `{0: c}`; a step towards `SingleColorFade` |
| GradientGenerator.SingleColorStops | src/gradientGenerator.ts:27-100 | `{0: c}` normalises to c at 0 and transparent black at 255 |
| GradientGenerator.WeightedMeanAgainstZero | src/gradientGenerator.ts:199-206 | against a zero channel the mean is the other channel scaled by its weight |
| GradientGenerator.FadedChannel | src/gradientGenerator.ts:199-206 | each faded channel is the colour's channel × (255 − i)/255 |
| GradientGenerator.SingleColorFade | src/gradientGenerator.ts:27-209 | a one-colour gradient fades that colour linearly to transparent black: entry i is the colour × (255 − i)/255, rounded and clamped |
| GradientGenerator.FadeEntry | src/gradientGenerator.ts:127-209 | the same fade for the stops c at 0 and transparent black at 255 |
| GradientGenerator.NormalizeSorted | src/gradientGenerator.ts:80-100 | stops already sorted are only scaled and given boundaries |
| GradientGenerator.EntryOnDuplicateOffset | src/gradientGenerator.ts:139-152 | when both bracketing stops sit on i, entry i is the stored alpha mean in byte 0 and zeros in bytes 1..3; this happens only at i = 0, with stops 0 and 1 bracketing |
| GradientGenerator.TwoStopsAtZero | src/gradientGenerator.ts:80-100 | two stops at 0 keep their order and only a 255 boundary is added |
| GradientGenerator.DuplicateOffsetStops | src/gradientGenerator.ts:53-100 | two entries at offset 0 normalise to those two stops and a transparent black stop at 255 |
| GradientGenerator.DuplicateOffsetQuirk | src/gradientGenerator.ts:139-152 | for two stops at offset 0, entry 0 is (stored alpha mean, 0, 0, 0): the red, green and blue means are overwritten |
| GradientGenerator.DuplicateEntry | src/gradientGenerator.ts:139-152 | the same for the normalised stops a, b at 0 and transparent black at 255 |
| GradientGenerator.DuplicateLevelZero | src/gradientGenerator.ts:80-152 | two prepared stops at 0 give entry 0 = (stored alpha mean, 0, 0, 0) once normalised |
| GradientGenerator.DuplicateOffsetExample | src/gradientGenerator.ts:139-152 | opaque red and opaque blue both at 0 give entry 0 = (255, 0, 0, 0) |
| GradientGenerator.SortDefaultOrder | src/gradientGenerator.ts:80 | stops at 0, 1 and 0.5, in that order, sort to 0, 0.5, 1 |
| GradientGenerator.NormalizeDefaultOrder | src/gradientGenerator.ts:80-100 | stops at 0, 1, 0.5 normalise to 0, 127.5, 255 without boundary stops |
| GradientGenerator.ScaleThree | src/gradientGenerator.ts:84-86 | three stops scale stop by stop |
| GradientGenerator.DefaultStopsNormalized | src/gradientGenerator.ts:4-100 | the default stops' object, whose entries come as 0, 1, 0.5, normalises to blue at 0, yellow at 127.5 and red at 255 |
| GradientGenerator.DefaultGradientEnds | src/gradientGenerator.ts:4-10 | the default gradient starts at opaque blue (0, 0, 255, 255) and ends at opaque red (255, 0, 0, 255) |
| GradientGenerator.ThreeStopEnds | src/gradientGenerator.ts:127-185 | three stops at 0, 127.5 and 255 give the first and last stops' levels at entries 0 and 255 |
| Heatmap.GradientArg | src/HeatmapGenerator.ts:29-41 | a missing or undefined gradient argument becomes the default stops |
| Heatmap.Dispatch | src/HeatmapGenerator.ts:28-51 | one or two arguments take the size and context from the canvas and fail when `getContext` gives null; three or four take them as given; any other count fails |
| Heatmap.FillSquare | src/HeatmapGenerator.ts:122-128 | the filled square is centred on the point, its half side is the larger radius, so it covers both circles |
| Heatmap.GeometryTiles | src/HeatmapGenerator.ts:78-87 | the cells tile the surface, and the radii are the given fractions (0.25 and 0.75 by default) of the mean cell size |
| Heatmap.Columns | src/HeatmapGenerator.ts:78 | the column count is the first row's length, and 0 exactly when there are no rows or the first row is empty |
| Heatmap.CellValue | src/HeatmapGenerator.ts:93 | a cell reads its value, or 0 when its row is too short |
| Heatmap.Geometry | src/HeatmapGenerator.ts:69-87 | on a surface with area the cells have positive size, and by default the outer radius is three times the inner one |
| Heatmap.Centre | src/HeatmapGenerator.ts:91-92 | a point's coordinate lies halfway between its cell's edges, inside the cell |
| Heatmap.Max | src/HeatmapGenerator.ts:122 | `Math.max(r1, r2)` is one of the two radii and not below either |
| Heatmap.CellCall | src/HeatmapGenerator.ts:89-94 | the call for a cell is centred in it, has the grid's shared radii and the cell's value, and fills the square around the larger radius |
| Heatmap.RowCalls | src/HeatmapGenerator.ts:90-95 | a row of c cells gives c calls |
| Heatmap.RowsCalls | src/HeatmapGenerator.ts:89-96 | rows of `columns` cells give rows × columns calls |
| Heatmap.GridCalls | src/HeatmapGenerator.ts:76-96 | a grid on a surface with area issues rows × columns calls, and none otherwise |
| Heatmap.RowCallAt | src/HeatmapGenerator.ts:90-95 | call k of a row is the call for column k |
| Heatmap.RowsCallAt | src/HeatmapGenerator.ts:89-96 | the calls are in row-major order: cell (r, c) is call r·columns + c |
| Heatmap.GridCallAt | src/HeatmapGenerator.ts:69-97 | `drawPointGrid` issues rows × columns calls, columns being the first row's length; call (r, c) is centred at ((c + 0.5)·width/columns, (r + 0.5)·height/rows), shares both radii and has the cell's value, 0 when missing |
| Heatmap.GridWithoutCells | src/HeatmapGenerator.ts:76-78 | no area, no rows or an empty first row gives no call |
| Heatmap.Lookup | src/HeatmapGenerator.ts:153-156 | a table byte past the table's end reads as 0 |
| Heatmap.PixelColor | src/HeatmapGenerator.ts:152-156 | a pixel's colour is four table bytes |
| Heatmap.Colorized | src/HeatmapGenerator.ts:151-162 | colourising keeps the surface's length |
| Heatmap.Opaque | src/HeatmapGenerator.ts:204-206 | making opaque keeps the surface's length |
| Heatmap.ColorizedAppend | src/HeatmapGenerator.ts:151-162 | colourising works pixel by pixel: a surface is colourised as its parts are |
| Heatmap.ColorizedStep | src/HeatmapGenerator.ts:151-162 | one more pixel adds that pixel's colour |
| Heatmap.OpaqueAppend | src/HeatmapGenerator.ts:204-206 | making opaque works pixel by pixel |
| Heatmap.OpaqueStep | src/HeatmapGenerator.ts:204-206 | one more pixel adds its colour bytes and alpha 255 |
| Heatmap.ColorizedPixel | src/HeatmapGenerator.ts:151-162 | pixel p after `colorize` is the table entry its old alpha byte selects, whatever its colour bytes were |
| Heatmap.FullTableLookup | src/HeatmapGenerator.ts:153-156 | with a 1024-byte table a pixel's colour is exactly the table's entry for its strength |
| Heatmap.ColorizeWithGradient | src/HeatmapGenerator.ts:151-162 | colourised with a gradient's table, pixel p becomes that gradient's entry for its old alpha |
| Heatmap.ColorizeReadsOnlyAlpha | src/HeatmapGenerator.ts:151-162 | surfaces that agree on their alpha bytes colourise alike: prior red, green and blue are ignored |
| Heatmap.OpaquePixel | src/HeatmapGenerator.ts:204-206 | pixel p after `makeOpaque` keeps its colour bytes and has alpha 255 |
| Heatmap.OpaqueIdempotent | src/HeatmapGenerator.ts:195-208 | making a surface opaque twice is making it opaque once |
| Heatmap.SurfaceBytes | src/HeatmapGenerator.ts:143-148 | a surface holds whole pixels and is empty exactly when its width or height is 0 |
| Heatmap.ColorizeTurn | src/HeatmapGenerator.ts:151-162 | one turn of the colorize loop replaces the next pixel by its colour |
| Heatmap.OpaqueTurn | src/HeatmapGenerator.ts:204-206 | one turn of the makeOpaque loop sets the next alpha byte to 255 |
| Heatmap.HeatmapGenerator.constructor | src/HeatmapGenerator.ts:28-51 | the generator keeps the dispatched context, size and gradient, with the table built from that gradient, a new surface array of width × height pixels and an empty call trace |
| Heatmap.HeatmapGenerator.Create | src/HeatmapGenerator.ts:18-51 | `new HeatmapGenerator(...)` fails exactly when dispatch fails, with the same error; otherwise its fields are the dispatched ones and `gradientData` is the table of `userGradient` |
| Heatmap.HeatmapGenerator.Gradient | src/HeatmapGenerator.ts:54-56 | the getter returns the stops whose table is cached |
| Heatmap.HeatmapGenerator.SetGradient | src/HeatmapGenerator.ts:58-61 | the setter stores the stops and the table built from them together |
| Heatmap.HeatmapGenerator.DrawPoint | src/HeatmapGenerator.ts:108-129 | with no area nothing is issued; otherwise one call is recorded, centred on (x, y) with the given radii and strength, filling the square around the larger radius |
| Heatmap.HeatmapGenerator.DrawPointGrid | src/HeatmapGenerator.ts:69-97 | the nested loops record exactly the grid's calls, in row-major order, and a grid with no call leaves the surface as it is |
| Heatmap.HeatmapGenerator.ColorizeTable | src/HeatmapGenerator.ts:134-140 | colorize colours with the cached table by default, with a given table as it is, and with given stops through a freshly built table |
| Heatmap.HeatmapGenerator.Colorize | src/HeatmapGenerator.ts:134-165 | the surface becomes its colourised self; only the surface changes, and `transparent` has no effect |
| Heatmap.HeatmapGenerator.MakeOpaque | src/HeatmapGenerator.ts:195-208 | the surface becomes its opaque self: alpha bytes 255, all other bytes unchanged |
| Heatmap.ColorizePixels | src/HeatmapGenerator.ts:151-162 | the in-place loop leaves exactly the colourised surface |
| Heatmap.StorePixel | src/HeatmapGenerator.ts:158-161 | the four stores replace exactly one pixel's bytes |
| Heatmap.OpaquePixels | src/HeatmapGenerator.ts:204-206 | the in-place loop leaves exactly the opaque surface |

## Left out

- Colour-string parsing by the `color` package (src/gradientGenerator.ts:2, 61-71): colours are taken as already parsed red, green, blue on 0..255 and alpha on 0..1. Alpha is scaled ×255 as the code does.
- `parseFloat` on object keys and the order of `Object.entries`/`Object.fromEntries`: an object is a sequence of entries whose key is an optional real, with None for a key that parses to NaN.
- ColorStops.ListToMap: builds its entries in list order (keys 0, 1/(n-1), …, 1), whereas `Object.entries` on the `Object.fromEntries` result lists the integer-like keys "0" and "1" first; the keys are distinct, so the stable sort gives the same stops either way.
- IEEE-754 numbers: offsets and channels are exact reals. Infinity offsets from `parseFloat("Infinity")` are not modelled. The `width / 0` of `drawPointGrid` when there are no columns is not computed: the model returns before it, as the source's loops then never run.
- The canvas's own drawing: `createRadialGradient`, `addColorStop` and `fillRect` are native canvas code. `drawPoint` is modelled by the call it issues (centre, radii, strength, filled square), recorded in `calls`.
- Heatmap.HeatmapGenerator.DrawPoint: may change any of the surface's bytes, and the contract does not say which or to what (only that a surface with no area is left as it is), because the canvas's radial fill is native code. The same holds for `DrawPointGrid`.
- `getImageData`/`putImageData`: the surface is a byte array the generator owns, read and written whole. Its starting content, whatever the canvas holds, is left open: the constructor's contract says only that the array is new and of the right size.
- `decolorize` (src/HeatmapGenerator.ts:167-190): it is unfinished. It builds a reverse map that is never used and changes no pixel.
- The shared `defaultGradient` table (src/gradientGenerator.ts:10) is not modelled as one shared array: generating the default stops' table gives equal contents, and nothing in the core writes into a returned table.
- The sort (src/gradientGenerator.ts:80) is modelled by its result, a stable sort by offset, and not by the engine's algorithm.
- The arguments are taken to have the types the constructor's signature declares (`WellTypedArgs`); a canvas or context of another shape is not modelled.
- Heatmap.Dispatch: a width or height passed as a number is taken to be a non-negative integer (`NumberArg(n: nat)`), narrower than the signature's `number`. Fractional, negative, NaN or infinite sizes are not modelled.
- Files outside the core are not part of this model: the declaration files, the compiled copies under dist/, and the demo page under dev/.
