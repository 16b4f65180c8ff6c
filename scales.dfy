/** The two linear scales of the chart: a padded domain computed from a
    minimum/maximum scan of the chosen field, and a fixed pixel range. */
module Scales {
  import opened Demographics

  // Layout constants of the SVG canvas and its margins.
  const SvgWidth: real := 1080.0
  const SvgHeight: real := 600.0
  const MarginTop: real := 20.0
  const MarginRight: real := 40.0
  const MarginBottom: real := 80.0
  const MarginLeft: real := 100.0

  /** Width and height of the plot area inside the margins. */
  const Width: real := SvgWidth - MarginLeft - MarginRight
  const Height: real := SvgHeight - MarginTop - MarginBottom

  // Padding factors of the two domains.
  const XLowPad: real := 0.9
  const XHighPad: real := 1.1
  const YLowPad: real := 0.75
  const YHighPad: real := 1.05

  /** The domain handed to the scale. `Undefined` stands for the one a scan of an
      empty dataset produces: the minimum and maximum are undefined and both
      padded endpoints are NaN. */
  datatype Domain = Undefined | Interval(lo: real, hi: real)

  /** The pixel range handed to the scale, from the image of the domain's low end
      to the image of its high end. */
  datatype Range = Range(start: real, end: real)

  datatype Scale = Scale(domain: Domain, range: Range)

  /** The minimum of a non-empty sequence, scanned left to right, replacing the
      running minimum whenever it is greater than the next value. */
  function MinOf(s: seq<real>): real
    requires |s| > 0
    decreases |s|
  {
    if |s| == 1 then s[0]
    else
      var m := MinOf(s[..|s| - 1]);
      if m > s[|s| - 1] then s[|s| - 1] else m
  }

  /** The maximum of a non-empty sequence, scanned left to right. */
  function MaxOf(s: seq<real>): real
    requires |s| > 0
    decreases |s|
  {
    if |s| == 1 then s[0]
    else
      var m := MaxOf(s[..|s| - 1]);
      if m < s[|s| - 1] then s[|s| - 1] else m
  }

  /** `[min(c) * low, max(c) * high]`, or `Undefined` when there is no value. */
  function PaddedDomain(c: seq<real>, low: real, high: real): Domain
  {
    if |c| == 0 then Undefined else Interval(MinOf(c) * low, MaxOf(c) * high)
  }

  /** `xScale(demoData, chosenXAxis)`, as far as its domain and range go. */
  function XScale(data: seq<Record>, f: XField): Scale
  {
    Scale(PaddedDomain(XColumn(data, f), XLowPad, XHighPad), Range(0.0, Width))
  }

  /** `yScale(demoData, chosenYAxis)`: the range is inverted, since screen Y grows downward. */
  function YScale(data: seq<Record>, f: YField): Scale
  {
    Scale(PaddedDomain(YColumn(data, f), YLowPad, YHighPad), Range(Height, 0.0))
  }

  /** `m` is the smallest value of `c`. */
  ghost predicate IsLeast(m: real, c: seq<real>)
  {
    (exists i :: 0 <= i < |c| && c[i] == m) && (forall i :: 0 <= i < |c| ==> m <= c[i])
  }

  /** `n` is the largest value of `c`. */
  ghost predicate IsGreatest(n: real, c: seq<real>)
  {
    (exists i :: 0 <= i < |c| && c[i] == n) && (forall i :: 0 <= i < |c| ==> c[i] <= n)
  }

  /** The domain is `[m * low, n * high]` where `m` is the smallest and `n` the
      largest value of `c`, stated without reference to how they are found. */
  ghost predicate PaddedExtentOf(d: Domain, c: seq<real>, low: real, high: real)
  {
    exists m, n :: IsLeast(m, c) && IsGreatest(n, c) && d == Interval(m * low, n * high)
  }

  lemma {:induction false} MinOfIsLowerBound(s: seq<real>, i: int)
    requires 0 <= i < |s|
    ensures MinOf(s) <= s[i]
    decreases |s|
  {
    if |s| > 1 && i < |s| - 1 {
      MinOfIsLowerBound(s[..|s| - 1], i);
    }
  }

  lemma {:induction false} MinOfIsAttained(s: seq<real>)
    requires |s| > 0
    ensures exists k :: 0 <= k < |s| && s[k] == MinOf(s)
    decreases |s|
  {
    if |s| == 1 {
      assert s[0] == MinOf(s);
    } else {
      var init := s[..|s| - 1];
      MinOfIsAttained(init);
      if MinOf(init) > s[|s| - 1] {
        assert s[|s| - 1] == MinOf(s);
      } else {
        var k :| 0 <= k < |init| && init[k] == MinOf(init);
        assert s[k] == MinOf(s);
      }
    }
  }

  lemma {:induction false} MaxOfIsUpperBound(s: seq<real>, i: int)
    requires 0 <= i < |s|
    ensures s[i] <= MaxOf(s)
    decreases |s|
  {
    if |s| > 1 && i < |s| - 1 {
      MaxOfIsUpperBound(s[..|s| - 1], i);
    }
  }

  lemma {:induction false} MaxOfIsAttained(s: seq<real>)
    requires |s| > 0
    ensures exists k :: 0 <= k < |s| && s[k] == MaxOf(s)
    decreases |s|
  {
    if |s| == 1 {
      assert s[0] == MaxOf(s);
    } else {
      var init := s[..|s| - 1];
      MaxOfIsAttained(init);
      if MaxOf(init) < s[|s| - 1] {
        assert s[|s| - 1] == MaxOf(s);
      } else {
        var k :| 0 <= k < |init| && init[k] == MaxOf(init);
        assert s[k] == MaxOf(s);
      }
    }
  }

  /** The padded domain of a non-empty column is `[low * smallest value,
      high * largest value]`. */
  lemma PaddedDomainExtent(c: seq<real>, low: real, high: real)
    requires |c| > 0
    ensures PaddedExtentOf(PaddedDomain(c, low, high), c, low, high)
  {
    MinOfIsAttained(c);
    MaxOfIsAttained(c);
    forall i | 0 <= i < |c|
      ensures MinOf(c) <= c[i] <= MaxOf(c)
    {
      MinOfIsLowerBound(c, i);
      MaxOfIsUpperBound(c, i);
    }
    assert IsLeast(MinOf(c), c) && IsGreatest(MaxOf(c), c);
  }

  /** With non-negative values, a low pad of at most 1 and a high pad of at least
      1, the padded domain is an ordered interval holding every value. */
  lemma PaddedDomainCovers(c: seq<real>, low: real, high: real)
    requires |c| > 0
    requires 0.0 <= low <= 1.0 <= high
    requires forall i :: 0 <= i < |c| ==> 0.0 <= c[i]
    ensures PaddedDomain(c, low, high).Interval?
    ensures PaddedDomain(c, low, high).lo <= PaddedDomain(c, low, high).hi
    ensures forall i :: 0 <= i < |c| ==>
      PaddedDomain(c, low, high).lo <= c[i] <= PaddedDomain(c, low, high).hi
  {
    MinOfIsAttained(c);
    forall i | 0 <= i < |c|
      ensures MinOf(c) * low <= c[i] <= MaxOf(c) * high
    {
      MinOfIsLowerBound(c, i);
      MaxOfIsUpperBound(c, i);
      PadEnclosesValue(MinOf(c), c[i], MaxOf(c), low, high);
    }
  }

  /** A value between `m` and `n` lies between their padded images. */
  lemma PadEnclosesValue(m: real, v: real, n: real, low: real, high: real)
    requires 0.0 <= m <= v <= n
    requires 0.0 <= low <= 1.0 <= high
    ensures m * low <= v <= n * high
  {
  }

  /** `xScale`: range `[0, 940]`; the domain is undefined exactly on an empty
      dataset, and otherwise `[0.9 * min, 1.1 * max]` of the chosen field. */
  lemma XScaleShape(data: seq<Record>, f: XField)
    ensures Width == 940.0
    ensures XScale(data, f).range == Range(0.0, 940.0)
    ensures XScale(data, f).domain.Undefined? <==> |data| == 0
    ensures |data| > 0 ==> PaddedExtentOf(XScale(data, f).domain, XColumn(data, f), 0.9, 1.1)
  {
    if |data| > 0 {
      PaddedDomainExtent(XColumn(data, f), XLowPad, XHighPad);
    }
  }

  /** `yScale`: inverted range `[500, 0]`; the domain is undefined exactly on an
      empty dataset, and otherwise `[0.75 * min, 1.05 * max]` of the chosen field. */
  lemma YScaleShape(data: seq<Record>, f: YField)
    ensures Height == 500.0
    ensures YScale(data, f).range == Range(500.0, 0.0)
    ensures YScale(data, f).domain.Undefined? <==> |data| == 0
    ensures |data| > 0 ==> PaddedExtentOf(YScale(data, f).domain, YColumn(data, f), 0.75, 1.05)
  {
    if |data| > 0 {
      PaddedDomainExtent(YColumn(data, f), YLowPad, YHighPad);
    }
  }

  /** For non-negative values, the X domain is ordered and every record's value
      of the chosen field lies inside it. */
  lemma XDomainCovers(data: seq<Record>, f: XField)
    requires |data| > 0
    requires forall i :: 0 <= i < |data| ==> 0.0 <= XValue(data[i], f)
    ensures XScale(data, f).domain.Interval?
    ensures XScale(data, f).domain.lo <= XScale(data, f).domain.hi
    ensures forall i :: 0 <= i < |data| ==>
      XScale(data, f).domain.lo <= XValue(data[i], f) <= XScale(data, f).domain.hi
  {
    var c := XColumn(data, f);
    PaddedDomainCovers(c, XLowPad, XHighPad);
    assert forall i :: 0 <= i < |data| ==> c[i] == XValue(data[i], f);
  }

  /** For non-negative values, the Y domain is ordered and every record's value
      of the chosen field lies inside it. */
  lemma YDomainCovers(data: seq<Record>, f: YField)
    requires |data| > 0
    requires forall i :: 0 <= i < |data| ==> 0.0 <= YValue(data[i], f)
    ensures YScale(data, f).domain.Interval?
    ensures YScale(data, f).domain.lo <= YScale(data, f).domain.hi
    ensures forall i :: 0 <= i < |data| ==>
      YScale(data, f).domain.lo <= YValue(data[i], f) <= YScale(data, f).domain.hi
  {
    var c := YColumn(data, f);
    PaddedDomainCovers(c, YLowPad, YHighPad);
    assert forall i :: 0 <= i < |data| ==> c[i] == YValue(data[i], f);
  }

  /** Non-negativity is needed: a single negative value yields a domain whose low
      end lies above its high end, and the value itself lies outside it. */
  lemma NegativeValueInvertsXDomain()
    ensures var d := XScale([Record("X", "XX", -10.0, 0.0, 0.0, 0.0, 0.0, 0.0)], Poverty).domain;
      d == Interval(-9.0, -11.0) && d.hi < -10.0 < d.lo
  {
  }
}
