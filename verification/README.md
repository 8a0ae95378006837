# lightning-line: the data-shaping core of the line-plot widget, in Dafny

The line-plot widget (`src/index.js`) draws one or more numeric series as lines
on a canvas with SVG axes. Around the drawing code sits a small amount of pure
logic, and this project models that logic and proves properties of it:

- **`formatData`** normalises the raw `series` key into series wrappers
  `{d, i, c, s}`. The key is either a flat list of numbers (one series) or a
  list of lists (several series). Each wrapper holds its points `{x, y}`, its
  position, a colour and a stroke width. Colour and width follow a broadcast
  rule: entry `k` when the list has more than one entry, otherwise entry 0.
- **`nestedExtent` and the span in `setAxis`**: the minimum and maximum of a
  coordinate over all series, and the span `Math.abs(max - min) || 1`.
- **Margins and the drawable area**: the margins `init` sets, and the canvas
  and border-rectangle size `width - left - right` by `height - top - bottom`.
- **`updateData` and `appendData`**: they replace or extend the stored series
  list, and the axis domains are recomputed.

Files and modules:

| file | module | contents |
|---|---|---|
| `values.dfy` | `JsValues` | `Option` for values that may be `undefined`, truthiness, `Math.max`, `Math.abs` |
| `series.dfy` | `Series` | points, axes, series wrappers, the formatted dataset |
| `extent.dfy` | `Extent` | `d3.max`/`d3.min` (one definition with a direction), the nested extent, its append law, the span |
| `format.dfy` | `Format` | the raw input as a tagged union, point construction, colour and width broadcast, `formatData` |
| `lineplot.dfy` | `LinePlot` | margins, drawable area, `setAxis`, the widget state, `init`, `updateData`, `appendData` |

JavaScript `undefined` is modelled as `None`, and it arises in two places.
First, when an explicit index is shorter than a series, the extra points have an
undefined x. Second, when the colour list has several entries but fewer than
there are series, the later series have an undefined colour. `d3.max` and
`d3.min` skip undefined entries, and so does `Extent.Extremum`. When nothing is
defined they return `undefined`. The span then computes `NaN`, and `NaN || 1`
makes it 1, so the span falls back to 1 in that case as well as for a zero
width.

Where the code and a plain reading of the widget's interface differ, the model
follows the code:

- An empty list of series (`series: []`) has no first entry, so it is not seen
  as nested. It is formatted as ONE empty series (`EmptyNestedIsOneEmptySeries`),
  which the widget then cannot draw (`EmptyInputNotDrawable`).
- A single number as `thickness` never sets a width. A non-zero number is
  truthy but has no `length` and no entry `[0]`; `0` is falsy, so
  `data.thickness || []` turns it into `[]`, which has no entry `[0]` either.
  Either way every series gets the default width, exactly as if the key were
  absent (`ScalarThicknessIgnored`).
- A single colour is broadcast to every series. A list of two or more colours
  is read per series without wrap-around, so series beyond its end get no
  colour (`ColorsDefined`).
- Margins are set only in `init`. Updating or appending data never changes
  them, even when the new data adds or drops an axis title.
- Series added by `appendData` keep the position `i` they were formatted with.
  They are not renumbered after the stored series (`AppendKeepsPositions`).

## Model

| member | source | states |
|---|---|---|
| `Extent.Extremum` | src/index.js:40-49 | `d3.max`/`d3.min` over possibly-undefined values: undefined exactly when no entry is defined; otherwise one of the entries, and at least as extreme as every defined entry |
| `Series.Coord` | src/index.js:53-58 | the accessors `d => d.x` and `d => d.y`: x may be undefined, y is always a defined number |
| `Series.PointLists` | src/index.js:53-58 | `series.map(d => d.d)`: one point list per series wrapper, in order, each the wrapper's own points |
| `Extent.Coords` | src/index.js:41-46 | `_.map(arr, map)`: one coordinate per point, the one the accessor selects |
| `Extent.ListExtrema` | src/index.js:41-46 | the inner `d3.max`/`d3.min` call: one extremum per point list, in order |
| `Extent.NestedExtremum` | src/index.js:41-46 | the outer `d3.max`/`d3.min` over the per-list extrema: undefined for no lists, and otherwise, when defined, one of the per-list extrema (its full meaning is `NestedExtremumCorrect`) |
| `Extent.NestedExtremumCorrect` | src/index.js:40-49 | taking the extremum per point list and then across lists gives the extremum over all points: undefined iff no point has a defined coordinate, otherwise it bounds every point and is attained by one |
| `Extent.ExtremumUnique` | src/index.js:40-49 | the extremum over all points is unique, so any two computations of it agree |
| `Extent.NestedExtent` | src/index.js:40-49 | `[min, max]` over all series: both bounds undefined iff no coordinate is defined; otherwise `min <= max`, every defined coordinate lies in `[min, max]`, and both bounds are attained by some point |
| `Extent.LowerBelowUpper` | src/index.js:40-49 | a bound below every coordinate lies below any attained coordinate, which is why `min <= max` |
| `Extent.Spread` | src/index.js:60-61 | the span (the absolute difference of the bounds, or 1 when that is falsy) is always strictly positive; it is the distance between the bounds when they differ, and 1 when they are equal or undefined |
| `Extent.SpreadCovers` | src/index.js:53-61 | every defined coordinate lies between the lower bound and the lower bound plus the span |
| `Extent.ConstantSpread` | src/index.js:60-61 | for constant data the extent is `[v, v]` and the span falls back to 1, not 0 |
| `Extent.NoneDefinedAppend` | src/index.js:40-49 | no coordinate is defined in a concatenation of point lists iff none is defined in either part |
| `Extent.JoinIsExtremum` | src/index.js:40-49 | joining the extrema of two groups of point lists gives the extremum of their concatenation |
| `Extent.NestedExtremumAppend` | src/index.js:40-49 | the nested extremum of `a ++ b` is the join of the nested extrema of `a` and `b` |
| `Extent.ExtentAppend` | src/index.js:40-49 | the extent of `a ++ b` has the smaller of the two lower bounds and the larger of the two upper bounds |
| `Format.IsNested` | src/index.js:246 | the shape test `_.isArray(data.series[0])`: true exactly for a list of lists with a first entry; a flat list and an empty list of lists fail it |
| `Format.ValueLists` | src/index.js:246-264 | the shape dispatch: a list of lists with a first entry is walked list by list; a flat list is one series; an empty list of lists has no first entry and becomes one empty series |
| `Format.ToPoints` | src/index.js:249-254 | one series' points: as many points as values, point `i` with `y` = value `i` and `x` from the index or the position (also lines 258-263) |
| `Format.XAt` | src/index.js:251 | x of point `i` is `i` without an index; with one it is `index[i]`, and undefined exactly when `i` is past the end of the index |
| `Format.BuildPoints` | src/index.js:245-264 | one point list per value list, in order and of the same length; point `i` has `y` = value `i` and `x` from the index or the position |
| `Format.Broadcast` | src/index.js:279-280 | the broadcast rule: a single entry applies to every series; with several entries series `k` gets entry `k`; the result is defined iff the list has one entry or more than `k` entries |
| `Format.BroadcastUniform` | src/index.js:279-280 | with at most one entry, every series receives the same value |
| `Format.ResolveColors` | src/index.js:268-271 | the colours found in the data are used when there are any; otherwise a palette is requested for exactly the number of series |
| `Format.ExplicitWidth` | src/index.js:272-279 | a list-valued `thickness` supplies the width of series `k` by the broadcast rule; an absent key or a single number supplies none |
| `JsValues.Truthy` | src/index.js:281 | the `s ? s :` test on a width: `undefined` and `0` are falsy, any other number is truthy |
| `Format.StrokeWidth` | src/index.js:281 | a truthy explicit width is used as given; otherwise the width is the default heuristic clamped to at least 1 |
| `Format.Wrap` | src/index.js:277-283 | the wrapper for position `k` keeps its point list, records `k`, takes its colour by the broadcast rule, and its width is the truthy explicit width, or else exactly `Math.max(default, 1)` |
| `Format.FormatData` | src/index.js:242-286 | a flat list is exactly one series of the same length; a non-empty list of lists is one series per list, in order, each of the same length; point `i` takes `x` from the index or its position and `y` from the value; wrapper `k` keeps its point list and records position `k`; colours and widths follow the broadcast rules; axis-title keys are kept; there is always at least one series |
| `Format.ColorsDefined` | src/index.js:268-280 | every series gets a defined colour iff the colour list has exactly one entry or at least one entry per series |
| `Format.PaletteColorsEverySeries` | src/index.js:268-271 | when the data names no colour and the palette returns one colour per series, every series is coloured |
| `Format.WidthsPositive` | src/index.js:279-281 | every stroke width is the truthy explicit width, or else at least 1 |
| `Format.ScalarThicknessIgnored` | src/index.js:272-281 | a single-number `thickness` gives the same widths as no `thickness` at all |
| `Format.FlatExample` | src/index.js:256-263 | `[1, 2, 3]` without an index becomes the points (0, 1), (1, 2), (2, 3) |
| `Format.NestedExample` | src/index.js:246-255 | `[[1, 2], [3, 4]]` becomes two series, with x values 0 and 1 in each |
| `Format.EmptyNestedIsOneEmptySeries` | src/index.js:246-264 | an empty list of series has no first entry to test, so it is formatted as a single empty series |
| `LinePlot.InitMargin` | src/index.js:20-26 | top and right margins are 0; the bottom margin is 57 iff an `xaxis` title is present, else 20; the left margin is 85 iff a `yaxis` title is present, else 60 |
| `LinePlot.PlotArea` | src/index.js:95-96 | the canvas (and the border rectangle at lines 120-121) together with the margins exactly tiles the container, horizontally and vertically |
| `LinePlot.Canvas` | src/index.js:95-96 | the widget's canvas (and the border rectangle at lines 120-121) together with its margins exactly tiles its container |
| `LinePlot.TitlesShrinkPlot` | src/index.js:20-26 | the plot is `width - 60` wide, 25 pixels less with a y-axis title, and `height - 20` high, 37 pixels less with an x-axis title |
| `LinePlot.SetAxis` | src/index.js:51-61 | both axis domains are the true extrema over all series; the y domain is defined iff some series has a point; each span is the span of its domain (absolute width, or 1) and so is positive |
| `LinePlot.YDefinedIffPoints` | src/index.js:53-55 | every point has a y value, so some y coordinate is defined iff some series is non-empty |
| `LinePlot.Init` | src/index.js:18-27 | the widget stores its size and data, installs the title-dependent margins (never more than 85 horizontally and 57 vertically), and its domains are those of the data |
| `LinePlot.Drawable` | src/index.js:215-226 | `draw` reads `s.d[0].x` of every series, so a series list with an empty series is not drawable; in a drawable non-empty list the first series has the point `draw` starts from |
| `LinePlot.EmptyInputNotDrawable` | src/index.js:215-226 | an empty flat or nested input is formatted into a series that `draw` cannot draw, since `draw` reads the first point of every series |
| `LinePlot.UpdateData` | src/index.js:288-293 | the stored dataset becomes the argument; size, margins and canvas size are unchanged; the domains are recomputed from the new data |
| `LinePlot.AppendData` | src/index.js:295-300 | the series list becomes old followed by new: its length grows by the number appended, the first old-length series are unchanged and the rest are the new ones; titles, size and margins are kept; the domains are recomputed |
| `LinePlot.AppendIsUpdate` | src/index.js:288-300 | appending is the same as updating with the concatenated series list |
| `LinePlot.UpdateLastWins` | src/index.js:288-293 | two updates in a row leave the widget as the second alone would |
| `LinePlot.AppendTwice` | src/index.js:295-300 | appending `a` then `b` is appending `a ++ b` once |
| `LinePlot.AppendNothing` | src/index.js:295-300 | appending no series leaves a consistent widget unchanged |
| `LinePlot.AppendWidensDomains` | src/index.js:295-300 | after an append each domain is the join of the stored domain and the domain of the appended series |
| `LinePlot.AppendKeepsPositions` | src/index.js:295-300 | an appended series keeps the position it was formatted with; it is not renumbered |
| `LinePlot.ExampleYExtent` | src/index.js:51-58 | the y extent of the points of `[10, 20, 15]` is `[10, 20]` |
| `LinePlot.ExamplePoints` | src/index.js:256-263 | `[10, 20, 15]` becomes the points (0, 10), (1, 20), (2, 15) |
| `LinePlot.ExampleCanvas` | src/index.js:92-96 | without titles, a 500 by 300 container gets a 440 by 280 canvas |
| `LinePlot.ExampleYDomain` | src/index.js:51-58 | a widget over the points of `[10, 20, 15]` has the y domain `[10, 20]` |
| `LinePlot.RenderExample` | src/index.js:18-96 | end to end: formatting `[10, 20, 15]` and initialising a 500 by 300 widget gives a 440 by 280 canvas, points at x = 0, 1, 2 and the y domain `[10, 20]` |

## Left out

- DOM, canvas and SVG construction, drawing and redrawing, axis, grid and title rendering (src/index.js:79-239): these are side effects with no functional result.
- Exceptions are not modelled. `draw` reads `s.d[0].x` (line 221) and throws whenever a stored series is empty; `LinePlot.Drawable` names that condition. `init` then throws at line 230, before lines 232-238 install `setAxis`, `redraw` and `updateAxis`. `updateData` and `appendData` throw at `this.redraw()` (lines 291, 298) after they have already replaced the data and domains. The model's `Init`, `UpdateData` and `AppendData` return a widget in every case.
- A dataset without a `series` key throws at line 246; `Format.RawData` always has one, so that case is outside the model.
- Mutation and aliasing are not modelled: the model maps values to fresh values. In the code, `formatData` overwrites `data.series` on its argument (lines 248, 258, 277) and returns that same object (line 285), so the caller's raw input is replaced. `getColorFromData` (line 268) receives the object after its series were already converted to points, whereas `Format.ResolveColors` hands it the raw input. `appendData` rewrites `.series` (line 296) on the very object that was passed to `updateData` (line 289), so the caller sees that change too.
- Zoom and pan, `MultiaxisZoom` and the `zoom` option: this is event wiring over an external library.
- `getXScale`, `getYScale`, `getXAxis` and `getYAxis`: they belong to the base class `lightning-axis-visualization`, which is not part of this model. So does any padding of the domains.
- `coerceValue` also comes from that base class. It is modelled as the identity, so x and y are the index, position or value themselves.
- `utils.getColorFromData` and `utils.getColors` come from `lightning-client-utils`, which is not part of this model. They are function fields of `Format.Externals`. Only `PaletteColorsEverySeries` assumes that `getColors(n)` has length `n`.
- The default width `Math.exp(2 - 0.003 * length)` is floating point. It is the uninterpreted `Externals.autoWidth`, and only the clamp to at least 1 is modelled.
- Loading the stylesheet from a file is I/O.
- Mixed raw input (a list whose entries are partly numbers and partly lists), non-numeric values, `NaN`, and falsy non-list `index` values lie outside the tagged union. Data values are reals, so there is no IEEE rounding. Container sizes and margins are whole pixels (`int`), as all the constants in `init` are.
- The formatted dataset keeps only the keys read after formatting: the series and the presence of the `xaxis` and `yaxis` titles. The text of the titles is only rendered.
