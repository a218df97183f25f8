# Bar chart layout and geometry

This project models the layout and geometry pass of a live bar chart component (`src/BarChart.tsx`) and proves properties of it. The component draws one bar per sample of a numeric sequence. The bars sit over a linear value axis and a point index axis.

The component works in two steps.

- **Scale effect.** It sets the index domain to `0..n` for `n` samples. This gives one point per sample plus a trailing phantom point. It then gates the samples' extent: only when both ends are finite does the value domain become `[min(0, lo), hi]`. Otherwise the previous domain stays.
- **Layout effect.** It skips everything when one of the four SVG elements is not attached. Otherwise it:
  - sets the value range to `[height - 30, 0]`;
  - takes the measured width of the value axis;
  - derives the plot-area width and the slot width `plotAreaWidth / (n || 1)`;
  - thins the index-axis labels to the multiples of `tickWidth < 100 ? ceil(100 / tickWidth) : 1`.

A render then draws each sample `d` at index `i` as a rectangle with these attributes:

- `x = xScale(i)` and `width = tickWidth`;
- `y = d < 0 ? yScale(0) : yScale(d)`;
- `height = |yScale(0) - yScale(d)|`.

## Structure

- `js.dfy`, module `Js`: JavaScript numbers as a datatype, `Finite(real) | PosInf | NegInf | NaN`. It covers comparison, `Math.ceil`, `Math.abs`, `Math.min` and `%` on integers.
- `decimal.dfy`, module `Decimal`: `toString()` of a non-negative integer, and its inverse.
- `d3.dfy`, module `D3`: the three d3 functions the component calls. They are written after d3's documented behaviour, as stated assumptions:
  - `extent` skips NaN and compares every other number, infinities included;
  - `scaleLinear` computes `r0 * (1 - t) + r1 * t` with `t = (x - d0) / (d1 - d0)`, and `t = 0.5` on a domain of zero span;
  - `scalePoint`, with no padding and centred alignment, spreads `k` points evenly from the first end of the range to the last. A single point sits at the middle.
- `domains.dfy`, module `Domains`: `validateExtent`, the value-domain update and the index domain.
- `layout.dfy`, module `Layout`: the arithmetic of the layout effect and the tick-label format.
- `bars.dfy`, module `BarGeometry`: the rectangle of each sample.
- `bar_chart.dfy`, module `BarChart`: class `Chart` holds the state the effects change in place:
  - the scale domains, the value range and the tick format;
  - the three published measurements.

  Each effect is a method. A render is a function of the state.

## Behaviour worth knowing

- **Infinities and the extent.** d3's `extent` skips NaN but compares infinities, so an infinite sample can become an end of the extent. `validateExtent` (`src/BarChart.tsx:23-26`) is what rejects such an extent: an infinite sample keeps the previous value domain.
- **No rounding of the domain.** The code never calls `nice()`, so the value domain is exactly `[min(0, lo), hi]`.
- **Zero is not always in the domain.** The code only lowers the start to `min(0, lo)`. When every sample is negative, the domain ends below zero and the zero line lies above the plot. `Domains.NextYDomainSpec` proves that zero is in the domain exactly when the greatest sample is not negative.
- **Label frequency for slot widths of zero or less.** `Math.ceil(100 / tickWidth)` is evaluated for every slot under 100px, including slots of zero or negative width:
  - a slot width of 0 gives frequency Infinity, and only tick 0 is labelled;
  - a negative slot width gives a frequency of 0 or less;
  - a frequency of 0 makes `i % 0` NaN, so no tick is labelled.

  `Layout.FirstTickLabelled` proves that tick 0 is labelled exactly when the slot width is at least -100.
- **The first layout pass runs at 0 by 0.** Before the root element is attached, the measured size is 0 by 0 (`src/BarChart.tsx:49-52`). The layout pass then sets the value range to `[-30, 0]`, which runs upward, and the slot width to `-yAxisWidth / (n || 1)`, which is negative once the value axis has any width. Bars are anchored from the zero line to their value only on a chart at least 30px tall. `BarGeometry.ShortChartBars` shows a 0px-high chart whose single bar is drawn from 0 to 30 while the zero line is at -30.

## Model

| member | source | states |
|---|---|---|
| `Js.Abs` | src/BarChart.tsx:130 | `Math.abs` gives `x` or `-x`, whichever is not negative |
| `Js.Min` | src/BarChart.tsx:67 | `Math.min` gives one of its arguments, and no more than either |
| `Js.Ceil` | src/BarChart.tsx:90 | `Math.ceil` gives the integer `r` with `x <= r < x + 1` |
| `Js.IntRemainder` | src/BarChart.tsx:92 | `i % k` is NaN exactly when `k` is 0; otherwise it is a whole number, non-negative, below `abs(k)`, and differs from `i` by a multiple of `k` |
| `Decimal.NatToDecimal` | src/BarChart.tsx:92 | `i.toString()` is a canonical numeral (digits only, no leading zero), one digit long exactly when `i < 10` |
| `Decimal.DecimalRoundTrip` | src/BarChart.tsx:92 | reading the numeral of `i` back gives `i` |
| `Decimal.NatToDecimalInjective` | src/BarChart.tsx:92 | different indices get different labels |
| `D3.ExtentStep` | src/BarChart.tsx:65 | one step of `extent`'s scan: NaN leaves it as it was, any other number widens it; characterized by `D3.ExtentIsMinMax` |
| `D3.Extent` | src/BarChart.tsx:65 | `extent(data)` as a left-to-right scan; characterized by `D3.ExtentIsMinMax` |
| `D3.ExtentIsMinMax` | src/BarChart.tsx:65 | the extent is undefined exactly when every sample is NaN; otherwise both bounds are samples and every sample that is not NaN lies between them |
| `D3.LinearScale.Apply` | src/BarChart.tsx:45 | `yScale(x)`: `r0 * (1 - t) + r1 * t` after normalising `x` to `t`; characterized by `D3.LinearMapsEnds` and `D3.LinearIsMonotone` |
| `D3.LinearMapsEnds` | src/BarChart.tsx:45 | a linear scale with a non-degenerate domain takes the domain's ends to the range's ends |
| `D3.LinearIsMonotone` | src/BarChart.tsx:45 | a linear scale with an upward domain and a downward range never increases; it strictly decreases when both are non-degenerate |
| `D3.PointScale.Apply` | src/BarChart.tsx:44 | the index scale gives a position exactly for the values in its domain |
| `D3.IndexOf` | src/BarChart.tsx:44 | the first position of a value in the domain, or none exactly when the value is absent |
| `Domains.ValidateExtent` | src/BarChart.tsx:23-26 | `validateExtent`: both ends of the extent are finite; characterized by `Domains.ValidExtentIff` |
| `Domains.NextYDomain` | src/BarChart.tsx:65-68 | the value domain after the scale effect; characterized by `Domains.NextYDomainSpec` |
| `Domains.ValidExtentIff` | src/BarChart.tsx:23-26 | the extent passes `validateExtent` exactly when some sample is finite and no sample is infinite |
| `Domains.NextYDomainSpec` | src/BarChart.tsx:65-68 | without a valid extent the domain is unchanged; with one it is `[min(0, least sample), greatest sample]`, in order, covers every finite sample, and contains 0 exactly when the greatest sample is not negative |
| `Domains.NextYDomainOrdered` | src/BarChart.tsx:66-67 | the update keeps the domain's ends in order |
| `Domains.IndexDomain` | src/BarChart.tsx:59-63 | the index domain has `n + 1` points, point `i` being `i` |
| `Domains.IndexDomainLookup` | src/BarChart.tsx:59-63 | the index domain strictly increases; index `i` is found at position `i` when `0 <= i <= n`, and not at all otherwise |
| `Domains.MixedSignScenario` | src/BarChart.tsx:65-68 | samples `[-500, 800]` give the domain `[-500, 800]` |
| `Domains.PositiveScenario` | src/BarChart.tsx:65-68 | samples `[1, 5, 2, 3, 7, 5, 3, 74]` give the domain `[0, 74]` |
| `Domains.InvalidDataScenario` | src/BarChart.tsx:65-68 | no samples, an infinite sample, or only NaN samples keep the previous domain |
| `Domains.ExtentSnoc` | src/BarChart.tsx:65 | appending a sample advances the extent scan by one step |
| `Layout.YRange` | src/BarChart.tsx:81 | the value range starts 30px above the bottom edge and ends at the top edge |
| `Layout.PlotAreaWidth` | src/BarChart.tsx:86 | the plot area and the measured value axis together fill the chart's width |
| `Layout.TickWidth` | src/BarChart.tsx:87 | `n` slots fill the plot area; with no samples one slot is the whole plot area, so the divisor is never 0 |
| `Layout.LabelFrequency` | src/BarChart.tsx:90 | 1 for slots of 100px or more; for slots between 0 and 100px, the least `k` (at least 2) with `k * tickWidth >= 100`; Infinity exactly for a 0px slot; for a negative slot, `ceil(100 / tickWidth)`: the integer `k` with `k * tickWidth <= 100 < (k - 1) * tickWidth`, which is 0 or less |
| `Layout.Shows` | src/BarChart.tsx:92 | `i % frequency === 0`, with `i % Infinity` being `i`; characterized by `Layout.ShowsAtMultiples` and `Layout.FirstTickLabelled` |
| `Layout.TickLabel` | src/BarChart.tsx:91-93 | a label is non-empty exactly when the tick is shown, and is then the decimal numeral of its index |
| `Layout.ShowsAtMultiples` | src/BarChart.tsx:90-92 | with a positive slot width, tick `i` is labelled exactly when `i` is a multiple of the frequency |
| `Layout.LabelsAreSpaced` | src/BarChart.tsx:89-92 | with a positive slot width, two labelled ticks are at least 100px apart |
| `Layout.FirstTickLabelled` | src/BarChart.tsx:90-92 | tick 0 is labelled exactly when the slot width is at least -100 |
| `Layout.DenseScenario` | src/BarChart.tsx:87-92 | 200 samples over 770px give 3.85px slots and frequency 26: ticks 0, 26 and 52 are labelled, ticks 25 and 27 are not |
| `BarGeometry.ZeroLine` | src/BarChart.tsx:53 | `xOrigin = yScale(0)`, the zero line; used by `BarGeometry.BarSpansZeroLineToValue` |
| `BarGeometry.BarAt` | src/BarChart.tsx:124-131 | a rectangle exists exactly for a finite sample whose index is in the index domain; it is one slot wide, not negative in height, and placed at the index scale's position |
| `BarGeometry.Bars` | src/BarChart.tsx:123-132 | one rectangle per sample, in sample order |
| `BarGeometry.BarSpansZeroLineToValue` | src/BarChart.tsx:129-130 | on a non-increasing value scale, a bar covers exactly the pixels between the zero line and its value: a negative sample hangs from the zero line, any other stands on it |
| `BarGeometry.FlatBarsAreZero` | src/BarChart.tsx:130 | on a strictly decreasing value scale, a bar has height 0 exactly when its sample is 0 |
| `BarGeometry.BarsTilePlotArea` | src/BarChart.tsx:55-63 | bar `i` starts `i` slots in and the next starts one slot later; the last bar ends at the plot area's right edge; with a positive width every bar starts inside the plot area, at or after its left edge and before its right edge |
| `BarGeometry.StepIsTickWidth` | src/BarChart.tsx:55 | over the index domain of `n >= 1` samples, the index scale's step equals the slot width |
| `BarGeometry.IndexLookup` | src/BarChart.tsx:59-63 | index `i <= n` sits at the `i`-th point of the index scale |
| `BarGeometry.PointSpacing` | src/BarChart.tsx:44 | neighbouring points of a point scale are one step apart, starting at the first end of the range |
| `BarGeometry.LaidOutBars` | src/BarChart.tsx:53-131 | after both effects on a chart at least 30px tall, there is one bar per sample, and every finite sample's bar is anchored. Anchored means `i` slots in, one slot wide, spanning from the zero line to its value |
| `BarGeometry.LaidOutBar` | src/BarChart.tsx:123-131 | over the index domain and a non-increasing value scale, the bar of sample `i` is anchored |
| `BarGeometry.MixedSignBars` | src/BarChart.tsx:123-131 | samples `[-500, 800]` on a 400px chart with a 770px plot area: the first bar hangs from the zero line to the bottom of the plot; the second stands on the zero line and reaches the top edge |
| `BarGeometry.ShortChartBars` | src/BarChart.tsx:49-52 | on a 0px-high chart, as on the first layout pass, the value range runs upward and the single bar of sample 74 is not anchored |
| `BarChart.Chart.constructor` | src/BarChart.tsx:35-47 | fresh scales (domain and range `[0, 1]`, empty index domain), d3's default tick format and zero measurements |
| `BarChart.Chart.XScale` | src/BarChart.tsx:55 | the index scale with its range set to `[0, plotAreaWidth]`; used by `BarChart.Chart.RenderedBars` |
| `BarChart.Chart.RenderedBars` | src/BarChart.tsx:123-132 | a render draws one rectangle per sample, from the current scales and slot width |
| `BarChart.Chart.TickLabelAt` | src/BarChart.tsx:91-93 | before the first layout every tick's label is the numeral of its index; after it a label is non-empty exactly when the frequency shows the tick; every non-empty label reads back as its index |
| `BarChart.Chart.UpdateScales` | src/BarChart.tsx:58-69 | the index domain becomes `0..n`; the value domain follows the gate; the rest of the state is unchanged |
| `BarChart.Chart.LayoutPass` | src/BarChart.tsx:71-104 | with a surface missing, nothing changes; otherwise it sets the range, measurements and tick format as above. The domains are untouched and the invariant kept |
| `BarChart.Chart.LayoutPassTwice` | src/BarChart.tsx:71-104 | a second pass with the same inputs gives the geometry of the first |
| `BarChart.Chart.Commit` | src/BarChart.tsx:53-131 | running both effects in order sets the whole new state: the domains from the samples; with a surface missing the layout fields unchanged, otherwise range, measurements and tick format from the layout formulas; and, when every surface is attached and the chart is at least 30px tall, the next render has anchored bars, one slot per sample |

## Left out

- React scheduling is not modelled: `useState`, `useLayoutEffect`, `useMemo`, the re-render toggle and the resize listener (`src/BarChart.tsx:33-37`, `106-114`). Each effect is a method called with explicit inputs. `Chart.Commit` runs the two effects in declaration order.
- Render ordering is not modelled. React computes the rectangles during a render, before that commit's effects run. So a render can use the scales the previous commit left. `Chart.RenderedBars` is a function of whatever state is current.
- The chart's size and the value axis's width are parameters. They come from `getBoundingClientRect` (`:49`) and `getBBox` (`:85`), which are I/O.
- Drawing is not modelled:
  - the axes (`select(...).call(axis)`);
  - the half-slot shift of the tick labels (`:95-98`);
  - the SVG elements and CSS.
- d3's `extent`, `scaleLinear` and `scalePoint` are not part of this model. `D3` states their behaviour as assumptions, as described above.
- Floating point is not modelled: numbers are exact reals. There is no model of rounding, overflow, or the difference between `+0` and `-0`.
- BarGeometry.BarAt: for a non-finite sample, or an index outside the index domain, the code computes NaN, infinite or `undefined` attributes. The model gives `Degenerate` and does not say which values those are.
- `src/useD3Selection.ts` is not modelled: it is a React/d3 selection wrapper with no logic of its own.
- `src/App.tsx` is not modelled: it is an interval timer and a `Math.random` data generator.
