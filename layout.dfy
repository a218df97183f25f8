/**
 * The arithmetic of the layout effect: the value-axis range, the width
 * left for plotting once the value axis is measured, the width of one
 * sample's slot, and how the index-axis labels are thinned out.
 */
module Layout {
  import opened Js
  import opened D3
  import opened Decimal

  /** Height reserved for the index axis below the plot. */
  const X_AXIS_HEIGHT: real := 30.0

  /** Least room, in pixels, between two index-axis labels. */
  const LABEL_SPACING: real := 100.0

  /** Which of the four drawing surfaces are attached. */
  datatype Surfaces = Surfaces(root: bool, xAxis: bool, yAxis: bool, plotArea: bool) {
    predicate AllAttached() {
      root && xAxis && yAxis && plotArea
    }
  }

  /** The value-axis range: from the top of the index-axis band up to the top edge. */
  function YRange(height: real): (r: Endpoints)
    ensures r.first + X_AXIS_HEIGHT == height && r.last == 0.0
  {
    Endpoints(height - X_AXIS_HEIGHT, 0.0)
  }

  /** The width of the plot area: what the measured value axis leaves of the chart. */
  function PlotAreaWidth(width: real, yAxisWidth: real): (r: real)
    ensures r + yAxisWidth == width
  {
    width - yAxisWidth
  }

  /**
   * The width of one sample's slot: `plotAreaWidth / (count || 1)`.
   * The slots of all samples fill the plot area; without samples one slot
   * takes all of it.
   */
  function TickWidth(plotAreaWidth: real, count: nat): (r: real)
    ensures count == 0 ==> r == plotAreaWidth
    ensures count > 0 ==> r * count as real == plotAreaWidth
  {
    plotAreaWidth / (if count == 0 then 1 else count) as real
  }

  /**
   * The label frequency as JavaScript computes it: a whole number, or
   * Infinity, which is what `Math.ceil(100 / 0)` gives.
   */
  datatype Frequency = Every(k: int) | Unbounded

  /** `tickWidth < 100 ? Math.ceil(100 / tickWidth) : 1`. */
  function LabelFrequency(tickWidth: real): (f: Frequency)
    ensures tickWidth == 0.0 <==> f.Unbounded?
    ensures tickWidth >= LABEL_SPACING ==> f == Every(1)
    ensures 0.0 < tickWidth < LABEL_SPACING ==>
      f.Every? && f.k >= 2 && f.k as real * tickWidth >= LABEL_SPACING && (f.k - 1) as real * tickWidth < LABEL_SPACING
    ensures tickWidth < 0.0 ==> f.Every? && f.k <= 0
    ensures tickWidth < 0.0 ==>
      f.Every? && f.k as real * tickWidth <= LABEL_SPACING < (f.k - 1) as real * tickWidth
  {
    if tickWidth < LABEL_SPACING then
      if tickWidth == 0.0 then Unbounded
      else
        var r := Ceil(LABEL_SPACING / tickWidth);
        assert 0.0 < tickWidth ==> r as real * tickWidth >= LABEL_SPACING && (r - 1) as real * tickWidth < LABEL_SPACING by {
          if 0.0 < tickWidth {
            QuotientBounds(LABEL_SPACING, tickWidth, r);
          }
        }
        assert tickWidth < 0.0 ==> r as real * tickWidth <= LABEL_SPACING < (r - 1) as real * tickWidth by {
          if tickWidth < 0.0 {
            NegativeQuotientBounds(LABEL_SPACING, tickWidth, r);
          }
        }
        Every(r)
    else Every(1)
  }

  /** From `q - 1 < n / d <= q` with `d` positive, scale by `d`. */
  lemma QuotientBounds(n: real, d: real, q: int)
    requires d > 0.0 && (q - 1) as real < n / d <= q as real
    ensures q as real * d >= n && (q - 1) as real * d < n
  {
    assert n == (n / d) * d;
  }

  /** From `q - 1 < n / d <= q` with `d` negative, scaling by `d` turns the bounds round. */
  lemma NegativeQuotientBounds(n: real, d: real, q: int)
    requires d < 0.0 && (q - 1) as real < n / d <= q as real
    ensures q as real * d <= n < (q - 1) as real * d
  {
    var x := n / d;
    assert x * d == n;
    MulByNegative(q as real, x, d);
    MulByNegative(x, (q - 1) as real, d);
  }

  lemma MulByNegative(a: real, b: real, c: real)
    requires a >= b && c < 0.0
    ensures a * c <= b * c
    ensures a > b ==> a * c < b * c
  {
  }

  /** `i % frequency === 0`: whether the tick at index `i` is labelled. */
  predicate Shows(f: Frequency, i: nat) {
    match f
    case Every(k) => IntRemainder(i, k) == Finite(0.0)
    // i % Infinity is i itself
    case Unbounded => i == 0
  }

  /** The tick format: the index in decimal where it is shown, the empty string elsewhere. */
  function TickLabel(f: Frequency, i: nat): (s: string)
    ensures s != "" <==> Shows(f, i)
    ensures s != "" ==> IsNumeral(s) && DecimalValue(s) == i
  {
    DecimalRoundTrip(i);
    if Shows(f, i) then NatToDecimal(i) else ""
  }

  /** With a positive slot width, a tick is labelled exactly at the multiples of the frequency. */
  lemma ShowsAtMultiples(tickWidth: real, i: nat)
    requires tickWidth > 0.0
    ensures LabelFrequency(tickWidth).Every? && LabelFrequency(tickWidth).k >= 1
    ensures Shows(LabelFrequency(tickWidth), i) <==> i % LabelFrequency(tickWidth).k == 0
  {
  }

  /**
   * With a positive slot width, two labelled ticks are at least 100px
   * apart: at most one label per 100px.
   */
  lemma {:induction false} LabelsAreSpaced(tickWidth: real, i: nat, j: nat)
    requires tickWidth > 0.0 && i < j
    requires Shows(LabelFrequency(tickWidth), i) && Shows(LabelFrequency(tickWidth), j)
    ensures (j - i) as real * tickWidth >= LABEL_SPACING
  {
    var k := LabelFrequency(tickWidth).k;
    ShowsAtMultiples(tickWidth, i);
    ShowsAtMultiples(tickWidth, j);
    FrequencyCoversSpacing(tickWidth);
    SpacedMultiples(tickWidth, k, i, j);
  }

  /** With a positive slot width, `frequency` slots span at least 100px. */
  lemma FrequencyCoversSpacing(tickWidth: real)
    requires tickWidth > 0.0
    ensures LabelFrequency(tickWidth).Every? && LabelFrequency(tickWidth).k >= 1
    ensures LabelFrequency(tickWidth).k as real * tickWidth >= LABEL_SPACING
  {
    if tickWidth >= LABEL_SPACING {
      assert LabelFrequency(tickWidth).k == 1;
    }
  }

  /** Two distinct multiples of `k` are at least `k` slots apart, so at least 100px when `k` slots are. */
  lemma SpacedMultiples(tickWidth: real, k: int, i: nat, j: nat)
    requires tickWidth > 0.0 && k >= 1 && k as real * tickWidth >= LABEL_SPACING
    requires i < j && i % k == 0 && j % k == 0
    ensures (j - i) as real * tickWidth >= LABEL_SPACING
  {
    MultiplesApart(i, j, k);
    MulAtLeast((j - i) as real, k as real, tickWidth);
  }

  /** Two distinct multiples of a positive `k` are at least `k` apart. */
  lemma MultiplesApart(i: nat, j: nat, k: int)
    requires k > 0 && i < j && i % k == 0 && j % k == 0
    ensures j - i >= k
  {
    var d := j - i;
    assert d == k * (j / k - i / k);
    PositiveMultiple(d, k, j / k - i / k);
  }

  lemma PositiveMultiple(d: int, k: int, m: int)
    requires d > 0 && k > 0 && d == k * m
    ensures d >= k
  {
    assert m >= 1;
  }

  lemma MulAtLeast(a: real, b: real, c: real)
    requires a >= b && c > 0.0
    ensures a * c >= b * c
  {
  }

  /** Index 0 is labelled unless the slot width is below -100, where the frequency rounds to 0. */
  lemma FirstTickLabelled(tickWidth: real)
    ensures Shows(LabelFrequency(tickWidth), 0) <==> tickWidth >= -LABEL_SPACING
  {
    if tickWidth < 0.0 {
      var q := LABEL_SPACING / tickWidth;
      assert q * tickWidth == LABEL_SPACING;
      if tickWidth < -LABEL_SPACING {
        assert -1.0 < q < 0.0;
      } else {
        assert q <= -1.0;
      }
    }
  }

  /** 200 samples over 770px: slots of 3.85px and a label on every 26th tick. */
  lemma DenseScenario()
    ensures TickWidth(770.0, 200) == 3.85
    ensures LabelFrequency(3.85) == Every(26)
    ensures Shows(Every(26), 0) && Shows(Every(26), 26) && Shows(Every(26), 52)
    ensures !Shows(Every(26), 25) && !Shows(Every(26), 27)
  {
    assert 25.0 < LABEL_SPACING / 3.85 < 26.0;
  }
}
