# Stack chart layout

A model of the layout arithmetic of the Power BI custom "stack chart"
visual (`StackChart` in `stackChart.ts`): the streamgraph-style stacking of
index-aligned line-chart series, the choice of the bottom series, the
synthesis of the baseline (`bottomLineSeries`) that closes the silhouette,
and the two small styling rules applied to each area (fill opacity under
selection, and the clamp of a y coordinate to the plot height).

Modules:

- `ChartData` (`chart_data.dfy`) — the `Point` (a `StreamChartDataPoint`) and
  `Series` (a `LineChartSeries`) records, the alignment predicate, the column
  of raw values at one x-index, and `Sum`.
- `Stacking` (`stacking.dfy`) — the `out` callback of d3's stack layout
  (`Out`), the layout as a series-by-series recursion (`StackFrom`, `Stack`),
  and `StackByColumn`, the same layout computed in the order d3 actually
  calls `out` (x-index by x-index, up the series list), proved equal to
  `Stack`. Lemmas give the closed form, conservation of the column total and
  monotonicity for non-negative data.
- `Baseline` (`baseline.dfy`) — lodash's `_.reduce` of `stackedValueBelow`
  (`ReduceBelow`, `BelowTotal`), the first-strict-minimum scan of `_.min`
  (`ScanMin`, `BottomIndex`), and `BaselineSeries`.
- `AreaStyle` (`area_style.dfy`) — `AreaFillOpacity`, `ClampToHeight` and the
  two clamped coordinates (`AreaBottomY`, `LineY`), with the y scale as a
  function parameter.

Numbers are Dafny `real`s. The stacking keeps the source's in-place
convention: after stacking, `value` holds `stackedValue`; the raw value is
the input's `value`.

Facts about the code that shape the model:

- Stacking uses input order (d3's default order) and d3's zero offset.
- The code has no length check. d3's loop runs over the first series' length,
  so a later series shorter than the first makes it throw a TypeError out of
  `setData`, and a longer one keeps unstacked tail points. On an empty list
  nothing throws (see "## Left out"). The model states alignment and
  non-emptiness as preconditions.
- `renderNew` works on `clippedData` when that is set (stackChart.ts:71), so
  on a scrolled chart the bottom series is chosen over the visible window's
  points only. `BaselineSeries` takes any series list, so it covers both.
- The baseline series is built (stackChart.ts:136-153) but never added to
  `lineSeries`, which is what the lines are bound to (stackChart.ts:132, 155,
  171). The model builds it and does not place it in any draw list.
- The area fill opacity is one of the two line-chart constants.

## Model

| member | source | states |
|---|---|---|
| `Stacking.Out` | stackChart.ts:57-61 | the callback sets `stackedValueBelow` to the offset `y0`, `stackedValue` to `y0` plus the raw value, `value` to `stackedValue`, and leaves every other point field unchanged |
| `Stacking.StackSeries` | stackChart.ts:53-61 | one series stacked on per-index offsets: each point is transformed by the callback on its own offset; the series' other fields and its length are unchanged |
| `Stacking.Raise` | stackChart.ts:56-59 | the offset passed to the next series up at each x-index is this series' `stackedValue` after stacking on the current offsets |
| `Stacking.StackFrom` | stackChart.ts:53-63 | stacking on given offsets: same number of series, series fields and lengths unchanged, every point transformed as by the callback, the lowest series resting on the offsets, and each series resting on the top of the one before it at every x-index |
| `Stacking.Stack` | stackChart.ts:53-63 | the layout with d3's zero offset: the first series rests on 0 at every x-index, series i+1 rests on series i's `stackedValue`, `stackedValue = stackedValueBelow + raw value`, `value = stackedValue`, nothing else changes |
| `Stacking.StackClosedForm` | stackChart.ts:53-61 | `stackedValueBelow` of series i at x-index k is the sum of the raw values of series 0..i-1 at k, and `stackedValue` the sum over series 0..i |
| `Stacking.StackConservesColumnTotal` | stackChart.ts:53-61 | the last series' `stackedValue` at k equals the sum of all series' raw values at k |
| `Stacking.StackBelowMonotone` | stackChart.ts:53-61 | with non-negative raw values, `stackedValueBelow` at a fixed x-index is non-decreasing up the stack |
| `Stacking.StackBelowNonNegative` | stackChart.ts:53-61 | with non-negative raw values, no band starts below zero |
| `Stacking.StackByColumn` | stackChart.ts:53-63 | running the callback x-index by x-index, with a running offset restarted at 0 for each x-index and fed with the raw values read before any callback overwrites `value`, yields exactly `Stack` |
| `Baseline.ReduceBelowIsSum` | stackChart.ts:134 | the `_.reduce` of `stackedValueBelow` from a start value equals that start value plus the plain sum of the lower edges |
| `Baseline.BelowTotal` | stackChart.ts:134 | the key `_.min` ranks a series by is the sum of its points' `stackedValueBelow` |
| `Baseline.BaselinePoint` | stackChart.ts:144-152 | a baseline point has value, `stackedValue` and `stackedValueBelow` all equal to the source point's `stackedValueBelow`, the source's category value and index, the given `seriesIndex` and the source key doubled |
| `Baseline.ScanMin` | stackChart.ts:134 | the `_.min` scan: a later series replaces the current best only when its below-total is strictly smaller, so the result is the first minimal series |
| `Baseline.BottomIndex` | stackChart.ts:134 | on a non-empty list, the chosen series has a below-total no larger than any series', and every earlier series has a strictly larger one |
| `Baseline.BottomIndexUnique` | stackChart.ts:134 | any index that is minimal with all earlier ones strictly larger is the chosen one: the tie-break makes the choice unique |
| `Baseline.BaselineSeries` | stackChart.ts:136-153 | the baseline's key is the bottom series' key doubled, its `lineIndex` is the number of series, color, xCol, yCol, identity and selection are the bottom series'; its data has the bottom's length and each point carries the source point's `stackedValueBelow` as value, top and bottom, the source's category value and index, `seriesIndex` equal to the number of series and a doubled key |
| `Baseline.BaselineAreaIsMinimal` | stackChart.ts:134-148 | the baseline's own below-total equals the bottom series' and is no larger than that of any series |
| `Baseline.BaselineOfStack` | stackChart.ts:53-148 | on stacked data, the baseline at x-index k is the sum of the raw values of the series stacked beneath the bottom series |
| `Baseline.NonNegativeStackBaselineIsZero` | stackChart.ts:53-148 | on stacked non-negative data the bottom series is the first one and the baseline runs along zero |
| `Baseline.BaselineTracesBottomArea` | stackChart.ts:86-148 | for any y scale and height, the clamped line y the baseline's points would get equals the clamped area bottom of the bottom series at every x-index |
| `Baseline.TwoSeriesExample` | stackChart.ts:53-153 | raw values [1,2] and [3,4] stack to bottoms [0,0] and [1,2], tops [1,2] and [4,6]; below-totals 0 and 3; the first series is chosen |
| `AreaStyle.AreaFillOpacity` | stackChart.ts:123 | an area gets the dimmed constant when there is a selection and its series is not selected, the normal constant otherwise |
| `AreaStyle.AreaDimmedIff` | stackChart.ts:123 | when the constants differ, the area is dimmed if and only if there is a selection and the series is not selected |
| `AreaStyle.AreaFillOpacityInUnitRange` | stackChart.ts:123 | constants in [0, 1] give an opacity in [0, 1] |
| `AreaStyle.ClampToHeight` | stackChart.ts:88 | the clamped coordinate is `min(y, height)`: at most the height, equal to y when y fits |
| `AreaStyle.ClampProperties` | stackChart.ts:88 | clamping is idempotent and order-preserving |
| `AreaStyle.AreaBottomY` | stackChart.ts:86-89 | the area's lower edge is the scaled `stackedValueBelow`, replaced by the height when it exceeds it (no lower bound is applied) |
| `AreaStyle.LineY` | stackChart.ts:97-100 | the line's y is the scaled `stackedValue`, replaced by the height when it exceeds it |

## Left out

- `BottomIndex`, `BaselineSeries`: require a non-empty series list. On an empty list lodash's `_.min` returns `Infinity`, whose `key` and `data` read as `undefined`, and the code then builds a baseline whose key is `undefined + undefined`, i.e. `NaN`, with `lineIndex` 0 and no points; that degenerate value is not modelled.
- `Stack`, `StackByColumn`: require all series to have as many points as the first. d3 iterates over the first series' length, so a later series shorter than the first makes d3's loop throw a TypeError (it reads `[1]` of an undefined point), and a longer one keeps unstacked tail points; neither case is modelled.
- JavaScript numbers are IEEE doubles; the model uses exact reals, so rounding in the running sums and in the below-totals (which could change a tie) is not modelled.
- Null or undefined values and the `.defined(...)` drawing breaks (stackChart.ts:91, 101) depend on JavaScript coercion and d3; not modelled.
- d3 itself: the `x` accessor (unused by the zero offset and default order), path generation with cardinal interpolation, scales, transitions, SVG attributes and data joins in `renderNew` (stackChart.ts:84-231) are left out; the y scale enters only as a function parameter.
- Stroke and dot opacities come from `ColumnUtil.getFillOpacity`, which is not part of this model.
- Point fields other than the seven the baseline sets (tooltip data, selection, identity of points) are not modelled.
- Interactivity, tooltips, data labels and `dataPointsToBind` (stackChart.ts:169-262), `StackCartesianChart` layer creation and the plugin registration (stackChart.ts:267-324) are framework glue.
- voronoiMap.ts is not part of this model: its tessellation is done by d3's Voronoi geometry in floating point, and the rest is rendering; its only arithmetic uses `ColumnUtil.getFillOpacity`, which is not visible.
