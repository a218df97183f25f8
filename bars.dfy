/**
 * The rectangles of the plot area: one per sample, as wide as a slot,
 * standing on or hanging from the zero line.
 */
module BarGeometry {
  import opened Js
  import opened D3
  import opened Domains
  import opened Layout

  /**
   * A rectangle's attributes.  `Degenerate` stands for a rectangle whose
   * attributes the source computes as NaN, an infinity or `undefined`: for
   * a sample that is not finite, or an index the index scale does not know.
   */
  datatype Bar = Rect(x: real, y: real, width: real, height: real) | Degenerate

  /** The vertical pixel position of the value 0. */
  function ZeroLine(yScale: LinearScale): real {
    yScale.Apply(0.0)
  }

  /** The rectangle of the sample `d` at index `i`. */
  function BarAt(i: nat, d: Num, xScale: PointScale, yScale: LinearScale, tickWidth: real): (b: Bar)
    ensures b.Rect? <==> d.Finite? && i in xScale.domain
    ensures b.Rect? ==> b.width == tickWidth && b.height >= 0.0 && Some(b.x) == xScale.Apply(i)
  {
    match (d, xScale.Apply(i))
    case (Finite(v), Some(x)) =>
      var origin := ZeroLine(yScale);
      var top := yScale.Apply(v);
      Rect(x, if v < 0.0 then origin else top, tickWidth, Abs(origin - top))
    case _ => Degenerate
  }

  /** `data.map(...)`: the rectangle of every sample, in order. */
  function Bars(data: seq<Num>, xScale: PointScale, yScale: LinearScale, tickWidth: real): (r: seq<Bar>)
    ensures |r| == |data|
    ensures forall i :: 0 <= i < |data| ==> r[i] == BarAt(i, data[i], xScale, yScale, tickWidth)
  {
    seq(|data|, i requires 0 <= i < |data| => BarAt(i, data[i], xScale, yScale, tickWidth))
  }

  /**
   * On a scale that never increases, a bar covers exactly the pixels
   * between the zero line and its sample's position: a negative sample
   * hangs from the zero line, any other stands on it.
   */
  lemma {:induction false} BarSpansZeroLineToValue(i: nat, v: real, xScale: PointScale, yScale: LinearScale, tickWidth: real)
    requires yScale.Decreasing() && i in xScale.domain
    ensures var b := BarAt(i, Finite(v), xScale, yScale, tickWidth);
      && b.Rect?
      && b.y == Min(ZeroLine(yScale), yScale.Apply(v))
      && b.y + b.height == (if ZeroLine(yScale) <= yScale.Apply(v) then yScale.Apply(v) else ZeroLine(yScale))
      && (v < 0.0 ==> b.y == ZeroLine(yScale) && b.y + b.height == yScale.Apply(v))
      && (v >= 0.0 ==> b.y == yScale.Apply(v) && b.y + b.height == ZeroLine(yScale))
  {
    if v < 0.0 {
      LinearIsMonotone(yScale, v, 0.0);
    } else {
      LinearIsMonotone(yScale, 0.0, v);
    }
  }

  /** On a scale that strictly decreases, only a zero sample gives a flat bar. */
  lemma FlatBarsAreZero(i: nat, v: real, xScale: PointScale, yScale: LinearScale, tickWidth: real)
    requires yScale.domain.first < yScale.domain.last && yScale.range.last < yScale.range.first
    requires i in xScale.domain
    ensures BarAt(i, Finite(v), xScale, yScale, tickWidth).height == 0.0 <==> v == 0.0
  {
    if v < 0.0 {
      LinearIsMonotone(yScale, v, 0.0);
    } else if v > 0.0 {
      LinearIsMonotone(yScale, 0.0, v);
    }
  }

  /**
   * Over the index domain of `n` samples and a plot area `[0, w]`, the bar
   * of sample `i` starts `i` slots in, so neighbouring bars touch and the
   * last one ends at the right edge of the plot area.
   */
  lemma {:induction false} BarsTilePlotArea(n: nat, w: real, i: nat)
    requires i < n
    ensures var xScale := PointScale(IndexDomain(n), Endpoints(0.0, w));
      var tw := TickWidth(w, n);
      && xScale.Apply(i) == Some(tw * i as real)
      && xScale.Apply(i + 1) == Some(tw * i as real + tw)
      && (i + 1 == n ==> tw * i as real + tw == w)
      && (w > 0.0 ==> 0.0 <= tw * i as real < w)
  {
    var xScale := PointScale(IndexDomain(n), Endpoints(0.0, w));
    var tw := TickWidth(w, n);
    StepIsTickWidth(n, w);
    IndexLookup(n, w, i);
    IndexLookup(n, w, i + 1);
    PointSpacing(xScale, i);
    SlotArithmetic(n as real, w, i as real, tw);
  }

  /** Over the index domain of `n` samples the step of the index scale is the slot width. */
  lemma StepIsTickWidth(n: nat, w: real)
    requires 1 <= n
    ensures PointScale(IndexDomain(n), Endpoints(0.0, w)).Step() == TickWidth(w, n)
  {
    assert |IndexDomain(n)| - 1 == n;
  }

  /** Index `i` of the index domain sits at the `i`-th point. */
  lemma IndexLookup(n: nat, w: real, i: nat)
    requires i <= n
    ensures PointScale(IndexDomain(n), Endpoints(0.0, w)).Apply(i)
         == Some(PointScale(IndexDomain(n), Endpoints(0.0, w)).Position(i))
  {
    IndexDomainLookup(n, i);
  }

  /** Neighbouring points of a point scale are one step apart; the first is at the start of the range. */
  lemma PointSpacing(p: PointScale, j: nat)
    requires |p.domain| >= 2
    ensures p.Position(j) == p.range.first + p.Step() * j as real
    ensures p.Position(j + 1) == p.Position(j) + p.Step()
  {
    assert (j + 1) as real == j as real + 1.0;
    Distribute(j as real, p.Step());
  }

  lemma SlotArithmetic(n: real, w: real, i: real, tw: real)
    requires 0.0 <= i < n && tw * n == w
    ensures i + 1.0 == n ==> tw * i + tw == w
    ensures w > 0.0 ==> 0.0 <= tw * i < w
  {
    if w > 0.0 {
      assert tw > 0.0;
      StrictlyScaled(i, n, tw);
    }
  }

  lemma Distribute(a: real, c: real)
    ensures c * (a + 1.0) == c * a + c
  {
  }

  lemma StrictlyScaled(a: real, b: real, c: real)
    requires a < b && c > 0.0
    ensures c * a < c * b
  {
  }

  /**
   * The bar of sample `d` at index `i` is where the layout promises it:
   * `i` slots in, one slot wide, and from the zero line to the sample's
   * value, hanging for a negative sample and standing otherwise.
   */
  predicate Anchored(b: Bar, i: nat, d: Num, yScale: LinearScale, tickWidth: real) {
    d.Finite? ==>
      && b.Rect?
      && b.x == tickWidth * i as real && b.width == tickWidth
      && (d.v < 0.0 ==> b.y == ZeroLine(yScale) && b.y + b.height == yScale.Apply(d.v))
      && (d.v >= 0.0 ==> b.y == yScale.Apply(d.v) && b.y + b.height == ZeroLine(yScale))
  }

  /** One bar per sample, each anchored. */
  predicate AllAnchored(data: seq<Num>, bars: seq<Bar>, yScale: LinearScale, tickWidth: real) {
    |bars| == |data| && forall i :: 0 <= i < |data| ==> Anchored(bars[i], i, data[i], yScale, tickWidth)
  }

  /**
   * The whole chart after both effects: with the value-axis domain of the
   * samples, the range of a chart at least as tall as the index-axis band,
   * and the plot area measured for these samples, every finite sample gets
   * a bar in its own slot that spans from the zero line to its value.
   */
  lemma {:induction false} LaidOutBars(previous: Endpoints, data: seq<Num>, width: real, height: real, yAxisWidth: real)
    requires previous.first <= previous.last
    requires height >= X_AXIS_HEIGHT
    ensures var plot := PlotAreaWidth(width, yAxisWidth);
      var tw := TickWidth(plot, |data|);
      var yScale := LinearScale(NextYDomain(previous, data), YRange(height));
      AllAnchored(data, Bars(data, PointScale(IndexDomain(|data|), Endpoints(0.0, plot)), yScale, tw), yScale, tw)
  {
    var plot := PlotAreaWidth(width, yAxisWidth);
    var tw := TickWidth(plot, |data|);
    var yScale := LinearScale(NextYDomain(previous, data), YRange(height));
    var xScale := PointScale(IndexDomain(|data|), Endpoints(0.0, plot));
    NextYDomainOrdered(previous, data);
    assert yScale.Decreasing();
    var bars := Bars(data, xScale, yScale, tw);
    forall i | 0 <= i < |data| ensures Anchored(bars[i], i, data[i], yScale, tw) {
      LaidOutBar(xScale, yScale, |data|, plot, i, data[i]);
    }
  }

  /** One bar of `LaidOutBars`. */
  lemma LaidOutBar(xScale: PointScale, yScale: LinearScale, n: nat, plot: real, i: nat, d: Num)
    requires xScale == PointScale(IndexDomain(n), Endpoints(0.0, plot)) && yScale.Decreasing() && i < n
    ensures Anchored(BarAt(i, d, xScale, yScale, TickWidth(plot, n)), i, d, yScale, TickWidth(plot, n))
  {
    if d.Finite? {
      BarsTilePlotArea(n, plot, i);
      IndexDomainLookup(n, i);
      BarSpansZeroLineToValue(i, d.v, xScale, yScale, TickWidth(plot, n));
    }
  }

  /**
   * Two samples either side of zero on a 400px-high chart with a 770px
   * plot area: the first bar hangs from the zero line down to the bottom
   * of the plot, the second stands on it up to the top edge.
   */
  lemma MixedSignBars(previous: Endpoints)
    ensures var data := [Finite(-500.0), Finite(800.0)];
      var yScale := LinearScale(NextYDomain(previous, data), YRange(400.0));
      var r := Bars(data, PointScale(IndexDomain(2), Endpoints(0.0, 770.0)), yScale, TickWidth(770.0, 2));
      && ZeroLine(yScale) == 2960.0 / 13.0
      && r[0] == Rect(0.0, 2960.0 / 13.0, 385.0, 1850.0 / 13.0)
      && r[1] == Rect(385.0, 0.0, 385.0, 2960.0 / 13.0)
  {
    var data := [Finite(-500.0), Finite(800.0)];
    MixedSignScenario(previous);
    var yScale := LinearScale(Endpoints(-500.0, 800.0), Endpoints(370.0, 0.0));
    assert LinearScale(NextYDomain(previous, data), YRange(400.0)) == yScale;
    assert yScale.Apply(0.0) == 2960.0 / 13.0;
    assert yScale.Apply(-500.0) == 370.0;
    assert yScale.Apply(800.0) == 0.0;
    IndexLookup(2, 770.0, 0);
    IndexLookup(2, 770.0, 1);
    StepIsTickWidth(2, 770.0);
  }

  /**
   * A chart shorter than the index-axis band gets a value range that runs
   * upward, so bars are no longer anchored.  The first layout pass is such
   * a case: before the root element is attached the measured size is 0 by 0.
   * One sample of 74 on a 0px-high chart with a 70px plot area: the bar
   * is drawn from 0 to 30 while the zero line is at -30.
   */
  lemma ShortChartBars(previous: Endpoints)
    ensures var data := [Finite(74.0)];
      var plot := PlotAreaWidth(100.0, 30.0);
      var tw := TickWidth(plot, 1);
      var yScale := LinearScale(NextYDomain(previous, data), YRange(0.0));
      var r := Bars(data, PointScale(IndexDomain(1), Endpoints(0.0, plot)), yScale, tw);
      && ZeroLine(yScale) == -30.0
      && r[0] == Rect(0.0, 0.0, 70.0, 30.0)
      && !AllAnchored(data, r, yScale, tw)
  {
    ExtentSnoc([], Finite(74.0));
    assert [] + [Finite(74.0)] == [Finite(74.0)];
    var yScale := LinearScale(Endpoints(0.0, 74.0), Endpoints(-30.0, 0.0));
    assert LinearScale(NextYDomain(previous, [Finite(74.0)]), YRange(0.0)) == yScale;
    assert yScale.Apply(0.0) == -30.0;
    assert yScale.Apply(74.0) == 0.0;
    IndexLookup(1, 70.0, 0);
  }
}
