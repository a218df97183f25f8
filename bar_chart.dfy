/**
 * The long-lived state of one bar chart: the two scales and the index
 * axis's tick format, which the effects change in place, and the three
 * published measurements.  Each effect is a method; what a render draws
 * is a function of the state.
 */
module BarChart {
  import opened Js
  import opened D3
  import opened Domains
  import opened Layout
  import opened BarGeometry

  class Chart {
    /** The index scale's domain. */
    var xDomain: seq<int>
    /** The value scale's domain and range. */
    var yDomain: Endpoints
    var yRange: Endpoints
    /** The index axis's tick format; `None` is d3's default, which labels every tick. */
    var tickFormat: Option<Frequency>
    /** The published measurements. */
    var yAxisWidth: real
    var plotAreaWidth: real
    var tickWidth: real

    /** The value-axis domain never runs backwards. */
    ghost predicate Valid()
      reads this
    {
      yDomain.first <= yDomain.last
    }

    /** Fresh scales, d3's default tick format and zero measurements. */
    constructor ()
      ensures Valid()
      ensures xDomain == [] && yDomain == DefaultLinear.domain && yRange == DefaultLinear.range
      ensures tickFormat == None
      ensures yAxisWidth == 0.0 && plotAreaWidth == 0.0 && tickWidth == 0.0
    {
      xDomain := [];
      yDomain := DefaultLinear.domain;
      yRange := DefaultLinear.range;
      tickFormat := None;
      yAxisWidth, plotAreaWidth, tickWidth := 0.0, 0.0, 0.0;
    }

    /** The value scale as the state holds it. */
    function YScale(): LinearScale
      reads this
    {
      LinearScale(yDomain, yRange)
    }

    /** The index scale as a render sets it up: its range is `[0, plotAreaWidth]`. */
    function XScale(): PointScale
      reads this
    {
      PointScale(xDomain, Endpoints(0.0, plotAreaWidth))
    }

    /** What a render draws in the plot area for `data`. */
    function RenderedBars(data: seq<Num>): (r: seq<Bar>)
      reads this
      ensures |r| == |data|
      ensures forall i :: 0 <= i < |data| ==> r[i] == BarAt(i, data[i], XScale(), YScale(), tickWidth)
    {
      Bars(data, XScale(), YScale(), tickWidth)
    }

    /** The label of index-axis tick `i` under the current tick format. */
    function TickLabelAt(i: nat): (s: string)
      reads this
      ensures tickFormat.None? ==> Decimal.IsNumeral(s) && Decimal.DecimalValue(s) == i
      ensures tickFormat.Some? ==> (s != "" <==> Shows(tickFormat.value, i))
      ensures s != "" ==> Decimal.IsNumeral(s) && Decimal.DecimalValue(s) == i
    {
      Decimal.DecimalRoundTrip(i);
      match tickFormat
      case None => Decimal.NatToDecimal(i)
      case Some(f) => TickLabel(f, i)
    }

    /**
     * The scale effect: the index domain becomes `0..|data|`; the value
     * domain follows the samples when their extent is valid and stays as
     * it was otherwise.  Nothing else changes.
     */
    method UpdateScales(data: seq<Num>)
      requires Valid()
      modifies this
      ensures Valid()
      ensures xDomain == IndexDomain(|data|)
      ensures yDomain == NextYDomain(old(yDomain), data)
      ensures !ValidateExtent(Extent(data)) ==> yDomain == old(yDomain)
      ensures yRange == old(yRange) && tickFormat == old(tickFormat)
      ensures yAxisWidth == old(yAxisWidth) && plotAreaWidth == old(plotAreaWidth) && tickWidth == old(tickWidth)
    {
      xDomain := IndexDomain(|data|);
      var e := Extent(data);
      if ValidateExtent(e) {
        yDomain := Endpoints(Min(0.0, e.value.lo.v), e.value.hi.v);
      }
      NextYDomainSpec(old(yDomain), data);
    }

    /**
     * The layout effect for a chart of `width` by `height` pixels whose
     * value axis, once drawn with the new range, measures
     * `measuredYAxisWidth`.  With a surface missing nothing changes;
     * otherwise the value range, the tick format and the three
     * measurements are set, and the domains are left alone.
     */
    method LayoutPass(surfaces: Surfaces, width: real, height: real, measuredYAxisWidth: real, count: nat)
      modifies this
      ensures !surfaces.AllAttached() ==>
        && yRange == old(yRange) && tickFormat == old(tickFormat)
        && yAxisWidth == old(yAxisWidth) && plotAreaWidth == old(plotAreaWidth) && tickWidth == old(tickWidth)
      ensures surfaces.AllAttached() ==>
        && yRange == YRange(height)
        && yAxisWidth == measuredYAxisWidth
        && plotAreaWidth == PlotAreaWidth(width, measuredYAxisWidth)
        && tickWidth == TickWidth(plotAreaWidth, count)
        && tickFormat == Some(LabelFrequency(tickWidth))
      ensures xDomain == old(xDomain) && yDomain == old(yDomain)
      ensures old(Valid()) ==> Valid()
    {
      if !surfaces.AllAttached() {
        return;
      }
      yRange := YRange(height);
      var plot := PlotAreaWidth(width, measuredYAxisWidth);
      var slot := TickWidth(plot, count);
      tickFormat := Some(LabelFrequency(slot));
      yAxisWidth := measuredYAxisWidth;
      plotAreaWidth := plot;
      tickWidth := slot;
    }

    /** A second layout pass with the same inputs leaves the state as the first left it. */
    method LayoutPassTwice(surfaces: Surfaces, width: real, height: real, measuredYAxisWidth: real, count: nat)
      modifies this
      ensures yDomain == old(yDomain) && xDomain == old(xDomain)
      ensures surfaces.AllAttached() ==>
        && yRange == YRange(height)
        && yAxisWidth == measuredYAxisWidth
        && plotAreaWidth == PlotAreaWidth(width, measuredYAxisWidth)
        && tickWidth == TickWidth(plotAreaWidth, count)
        && tickFormat == Some(LabelFrequency(tickWidth))
      ensures !surfaces.AllAttached() ==>
        && yRange == old(yRange) && tickFormat == old(tickFormat)
        && yAxisWidth == old(yAxisWidth) && plotAreaWidth == old(plotAreaWidth) && tickWidth == old(tickWidth)
    {
      LayoutPass(surfaces, width, height, measuredYAxisWidth, count);
      ghost var once := (yRange, tickFormat, yAxisWidth, plotAreaWidth, tickWidth);
      LayoutPass(surfaces, width, height, measuredYAxisWidth, count);
      assert (yRange, tickFormat, yAxisWidth, plotAreaWidth, tickWidth) == once;
    }

    /**
     * Both effects in the order the component declares them, for new
     * samples and a chart of the given size.  When every surface is
     * attached and the chart is at least as tall as the index-axis band,
     * the next render draws every finite sample's bar in its own slot,
     * from the zero line to the sample's value.
     */
    method Commit(data: seq<Num>, surfaces: Surfaces, width: real, height: real, measuredYAxisWidth: real)
      requires Valid()
      modifies this
      ensures Valid()
      ensures xDomain == IndexDomain(|data|) && yDomain == NextYDomain(old(yDomain), data)
      ensures surfaces.AllAttached() ==>
        && yRange == YRange(height)
        && yAxisWidth == measuredYAxisWidth
        && plotAreaWidth == PlotAreaWidth(width, measuredYAxisWidth)
        && tickWidth == TickWidth(plotAreaWidth, |data|)
        && tickFormat == Some(LabelFrequency(tickWidth))
      ensures !surfaces.AllAttached() ==>
        && yRange == old(yRange) && tickFormat == old(tickFormat)
        && yAxisWidth == old(yAxisWidth) && plotAreaWidth == old(plotAreaWidth) && tickWidth == old(tickWidth)
      ensures surfaces.AllAttached() && height >= X_AXIS_HEIGHT ==>
        AllAnchored(data, RenderedBars(data), YScale(), tickWidth)
    {
      ghost var previous := yDomain;
      UpdateScales(data);
      LayoutPass(surfaces, width, height, measuredYAxisWidth, |data|);
      if surfaces.AllAttached() && height >= X_AXIS_HEIGHT {
        LaidOutBars(previous, data, width, height, measuredYAxisWidth);
      }
    }
  }
}
