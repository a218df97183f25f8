/**
 * The scale-domain effect of the bar chart: the gate on the extent of the
 * samples, the value-axis domain it lets through, and the index-axis
 * domain with its trailing phantom point.
 */
module Domains {
  import opened Js
  import opened D3

  /** `validateExtent`: both ends of the extent are finite numbers. */
  predicate ValidateExtent(e: Option<Bounds>) {
    e.Some? && IsFinite(e.value.lo) && IsFinite(e.value.hi)
  }

  /** The value-axis domain after the effect: `[min(0, lo), hi]`, or the previous one. */
  function NextYDomain(previous: Endpoints, data: seq<Num>): Endpoints {
    var e := Extent(data);
    if ValidateExtent(e) then Endpoints(Min(0.0, e.value.lo.v), e.value.hi.v) else previous
  }

  /** The index-axis domain `0, 1, ..., n`: one point per sample and a phantom point after them. */
  function IndexDomain(n: nat): (r: seq<int>)
    ensures |r| == n + 1
    ensures forall i :: 0 <= i < |r| ==> r[i] == i
  {
    seq(n + 1, i => i)
  }

  /** The extent passes the gate exactly when some sample is finite and none is infinite. */
  lemma ValidExtentIff(data: seq<Num>)
    ensures ValidateExtent(Extent(data)) <==>
      (exists i :: 0 <= i < |data| && data[i].Finite?) &&
      (forall i :: 0 <= i < |data| ==> data[i].Finite? || data[i].NaN?)
  {
    ExtentIsMinMax(data);
    if ValidateExtent(Extent(data)) {
      var b := Extent(data).value;
      var i :| 0 <= i < |data| && data[i] == b.lo;
      assert data[i].Finite?;
      forall k | 0 <= k < |data| ensures data[k].Finite? || data[k].NaN? {
        if !data[k].NaN? {
          assert AtMost(b.lo, data[k]) && AtMost(data[k], b.hi);
        }
      }
    } else if exists i :: 0 <= i < |data| && data[i].Finite? {
      var i :| 0 <= i < |data| && data[i].Finite?;
      assert Extent(data).Some?;
      var b := Extent(data).value;
      var j :| 0 <= j < |data| && data[j] == b.lo;
      var k :| 0 <= k < |data| && data[k] == b.hi;
      assert !b.lo.Finite? || !b.hi.Finite?;
      assert !(data[j].Finite? || data[j].NaN?) || !(data[k].Finite? || data[k].NaN?);
    }
  }

  /**
   * The value-axis domain changes only when the extent passes the gate.
   * It then starts at `min(0, least sample)`, so at or below zero, ends at
   * the greatest sample, covers every finite sample, and contains zero
   * exactly when the greatest sample is not negative.
   */
  lemma NextYDomainSpec(previous: Endpoints, data: seq<Num>)
    ensures !ValidateExtent(Extent(data)) ==> NextYDomain(previous, data) == previous
    ensures ValidateExtent(Extent(data)) ==>
      var d := NextYDomain(previous, data);
      && d.first <= 0.0
      && d.first <= d.last
      && (forall i :: 0 <= i < |data| && data[i].Finite? ==> d.first <= data[i].v <= d.last)
      && (d.first == 0.0 || exists i :: 0 <= i < |data| && data[i] == Finite(d.first))
      && (exists j :: 0 <= j < |data| && data[j] == Finite(d.last))
      && (d.first <= 0.0 <= d.last <==> d.last >= 0.0)
  {
    ExtentIsMinMax(data);
    if ValidateExtent(Extent(data)) {
      var b := Extent(data).value;
      var d := NextYDomain(previous, data);
      assert AtMost(b.lo, b.hi) by {
        var i :| 0 <= i < |data| && data[i] == b.lo;
        assert AtMost(b.lo, data[i]) && AtMost(data[i], b.hi);
      }
      forall i | 0 <= i < |data| && data[i].Finite? ensures d.first <= data[i].v <= d.last {
        assert AtMost(b.lo, data[i]) && AtMost(data[i], b.hi);
      }
    }
  }

  /** The domain keeps its ends in order: a domain that starts at or below its end still does. */
  lemma NextYDomainOrdered(previous: Endpoints, data: seq<Num>)
    requires previous.first <= previous.last
    ensures NextYDomain(previous, data).first <= NextYDomain(previous, data).last
  {
    NextYDomainSpec(previous, data);
  }

  /** The index domain increases strictly and each sample index finds itself in it. */
  lemma IndexDomainLookup(n: nat, i: int)
    ensures forall j, k :: 0 <= j < k < |IndexDomain(n)| ==> IndexDomain(n)[j] < IndexDomain(n)[k]
    ensures 0 <= i <= n ==> IndexOf(IndexDomain(n), i) == Some(i)
    ensures i < 0 || i > n ==> IndexOf(IndexDomain(n), i).None?
  {
    var r := IndexDomain(n);
    if 0 <= i <= n {
      assert r[i] == i;
      var j := IndexOf(r, i).value;
      assert r[j] == i;
    } else {
      assert i !in r;
    }
  }

  /** The value-axis domain of two samples from each side of zero: `[-500, 800]`. */
  lemma MixedSignScenario(previous: Endpoints)
    ensures NextYDomain(previous, [Finite(-500.0), Finite(800.0)]) == Endpoints(-500.0, 800.0)
  {
    ExtentSnoc([], Finite(-500.0));
    ExtentSnoc([Finite(-500.0)], Finite(800.0));
  }

  /** The value-axis domain of a run of positive samples starts at zero: `[0, 74]`. */
  lemma PositiveScenario(previous: Endpoints)
    ensures NextYDomain(previous, [Finite(1.0), Finite(5.0), Finite(2.0), Finite(3.0),
                                   Finite(7.0), Finite(5.0), Finite(3.0), Finite(74.0)])
            == Endpoints(0.0, 74.0)
  {
    var s := [Finite(1.0), Finite(5.0), Finite(2.0), Finite(3.0),
              Finite(7.0), Finite(5.0), Finite(3.0), Finite(74.0)];
    ExtentPrefix(s, 0);
    ExtentPrefix(s, 1);
    ExtentPrefix(s, 2);
    ExtentPrefix(s, 3);
    ExtentPrefix(s, 4);
    ExtentPrefix(s, 5);
    ExtentPrefix(s, 6);
    ExtentPrefix(s, 7);
    assert s[..8] == s;
  }

  /** Appending a sample advances `extent`'s scan by one step. */
  lemma ExtentSnoc(s: seq<Num>, x: Num)
    ensures Extent(s + [x]) == ExtentStep(Extent(s), x)
  {
    assert (s + [x])[..|s|] == s;
  }

  /** Each prefix of the samples extends the scan of the one before it. */
  lemma ExtentPrefix(s: seq<Num>, k: nat)
    requires k < |s|
    ensures Extent(s[..k + 1]) == ExtentStep(Extent(s[..k]), s[k])
  {
    assert s[..k + 1][..k] == s[..k];
  }

  /** Without samples, or with an infinite sample, the previous domain stays. */
  lemma InvalidDataScenario(previous: Endpoints)
    ensures NextYDomain(previous, []) == previous
    ensures NextYDomain(previous, [Finite(3.0), PosInf]) == previous
    ensures NextYDomain(previous, [NaN, NaN]) == previous
  {
  }
}
