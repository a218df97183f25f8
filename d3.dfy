/**
 * The three pieces of the d3 library that the chart calls: `extent`,
 * `scaleLinear` and `scalePoint`.  Their code is not part of this model;
 * each is written here after d3's documented behaviour and stated as an
 * assumption about it.
 */
module D3 {
  import opened Js

  /** The `[min, max]` pair returned by `extent` on a non-empty input. */
  datatype Bounds = Bounds(lo: Num, hi: Num)

  /** One step of `extent`'s scan: NaN is skipped, any other number is compared. */
  function ExtentStep(acc: Option<Bounds>, value: Num): Option<Bounds> {
    if value.NaN? then acc
    else match acc
      case None => Some(Bounds(value, value))
      case Some(b) => Some(Bounds(if Less(value, b.lo) then value else b.lo,
                                  if Less(b.hi, value) then value else b.hi))
  }

  /**
   * `extent(data)`: scanning left to right, the least and greatest number
   * that is not NaN; `None` stands for `[undefined, undefined]`.
   * Infinities take part in the comparison.
   */
  function Extent(data: seq<Num>): Option<Bounds>
    decreases |data|
  {
    if |data| == 0 then None else ExtentStep(Extent(data[..|data| - 1]), data[|data| - 1])
  }

  /**
   * `extent` is undefined exactly when every sample is NaN (or there are
   * none); otherwise its bounds are samples, neither is NaN, and every
   * sample that is not NaN lies between them.
   */
  lemma {:induction false} ExtentIsMinMax(data: seq<Num>)
    ensures Extent(data).None? <==> forall i :: 0 <= i < |data| ==> data[i].NaN?
    ensures Extent(data).Some? ==>
      var b := Extent(data).value;
      && !b.lo.NaN? && !b.hi.NaN?
      && (exists i :: 0 <= i < |data| && data[i] == b.lo)
      && (exists j :: 0 <= j < |data| && data[j] == b.hi)
      && forall k :: 0 <= k < |data| && !data[k].NaN? ==> AtMost(b.lo, data[k]) && AtMost(data[k], b.hi)
    decreases |data|
  {
    if |data| > 0 {
      var n := |data| - 1;
      var init := data[..n];
      var last := data[n];
      ExtentIsMinMax(init);
      assert forall i :: 0 <= i < n ==> init[i] == data[i];
      match Extent(init)
      case None =>
        if !last.NaN? {
          LessIsStrictTotalOrder(last, last, last);
        }
      case Some(b) =>
        if !last.NaN? {
          var b' := Extent(data).value;
          forall k | 0 <= k < |data| && !data[k].NaN?
            ensures AtMost(b'.lo, data[k]) && AtMost(data[k], b'.hi)
          {
            LessIsStrictTotalOrder(last, b.lo, data[k]);
            LessIsStrictTotalOrder(b.hi, last, data[k]);
            AtMostIsPreorder(b'.lo, b.lo, data[k]);
            AtMostIsPreorder(data[k], b.hi, b'.hi);
            AtMostIsPreorder(last, last, last);
          }
          var i :| 0 <= i < n && init[i] == b.lo;
          var j :| 0 <= j < n && init[j] == b.hi;
          assert data[if b'.lo == last then n else i] == b'.lo;
          assert data[if b'.hi == last then n else j] == b'.hi;
        }
    }
  }

  /** A two-element `[first, last]` array passed to `domain` or `range`. */
  datatype Endpoints = Endpoints(first: real, last: real)

  /**
   * A `scaleLinear()` without clamping or rounding.  On a domain of
   * non-zero span a value is normalised to `t = (x - d0) / (d1 - d0)`;
   * on a domain of zero span d3 normalises every value to `t = 0.5`.
   * `t` is then interpolated into the range as `r0 * (1 - t) + r1 * t`.
   */
  datatype LinearScale = LinearScale(domain: Endpoints, range: Endpoints) {

    function Normalize(x: real): real {
      var span := domain.last - domain.first;
      if span != 0.0 then (x - domain.first) / span else 0.5
    }

    function Apply(x: real): real {
      var t := Normalize(x);
      range.first * (1.0 - t) + range.last * t
    }

    /** The domain runs upward and the range downward. */
    predicate Decreasing() {
      domain.first <= domain.last && range.last <= range.first
    }
  }

  /** A fresh `scaleLinear()`: domain and range are both `[0, 1]`. */
  const DefaultLinear := LinearScale(Endpoints(0.0, 1.0), Endpoints(0.0, 1.0))

  /** A linear scale takes the ends of a non-degenerate domain to the ends of its range. */
  lemma LinearMapsEnds(s: LinearScale)
    requires s.domain.first != s.domain.last
    ensures s.Apply(s.domain.first) == s.range.first
    ensures s.Apply(s.domain.last) == s.range.last
  {
  }

  /** A scale whose domain runs upward and whose range runs downward never increases. */
  lemma {:induction false} LinearIsMonotone(s: LinearScale, x: real, y: real)
    requires s.Decreasing() && x <= y
    ensures s.Apply(y) <= s.Apply(x)
    ensures s.domain.first < s.domain.last && s.range.last < s.range.first && x < y ==> s.Apply(y) < s.Apply(x)
  {
    var span := s.domain.last - s.domain.first;
    if span != 0.0 {
      var tx, ty := s.Normalize(x), s.Normalize(y);
      var dr := s.range.last - s.range.first;
      assert ty - tx == (y - x) / span;
      assert s.Apply(y) - s.Apply(x) == (ty - tx) * dr;
      assert ty - tx >= 0.0;
      assert x < y ==> ty - tx > 0.0;
      assert dr <= 0.0;
      MulSignNonPositive(ty - tx, dr);
    }
  }

  lemma MulSignNonPositive(a: real, b: real)
    requires a >= 0.0 && b <= 0.0
    ensures a * b <= 0.0
    ensures a > 0.0 && b < 0.0 ==> a * b < 0.0
  {
  }

  /**
   * A `scalePoint()` with d3's defaults (no padding, centred, no
   * rounding): the `k` domain values are spread evenly from the first end
   * of the range to the last; a single value sits at the middle of the
   * range.  A value outside the domain maps to `undefined`.  d3 drops
   * repeated domain values before placing the points; this model places
   * by first occurrence over the domain as given, which agrees with d3 on
   * every domain without repeats, such as the index domain `0..n`.
   */
  datatype PointScale = PointScale(domain: seq<int>, range: Endpoints) {

    function Step(): real {
      var k := |domain|;
      (range.last - range.first) / (if k >= 2 then (k - 1) as real else 1.0)
    }

    function Position(j: nat): real {
      if |domain| >= 2 then range.first + Step() * j as real
      else (range.first + range.last) / 2.0
    }

    function Apply(v: int): (r: Option<real>)
      ensures r.Some? <==> v in domain
    {
      match IndexOf(domain, v)
      case None => None
      case Some(j) => Some(Position(j))
    }
  }

  /** The first position of `v` in `s`, if any. */
  function IndexOf(s: seq<int>, v: int): (r: Option<nat>)
    ensures r.None? <==> v !in s
    ensures r.Some? ==> r.value < |s| && s[r.value] == v && v !in s[..r.value]
    decreases |s|
  {
    if |s| == 0 then None
    else if s[0] == v then Some(0)
    else match IndexOf(s[1..], v)
      case None => None
      case Some(j) =>
        assert s[..j + 1] == [s[0]] + s[1..][..j];
        Some(j + 1)
  }
}
