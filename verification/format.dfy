/** The input normaliser `formatData`: it turns the raw `series` key into a
    list of series wrappers with points, a position, a colour and a width. */
module Format {
  import opened JsValues
  import opened Series

  /** The raw `series` key: one flat list of numbers (a single series) or a
      list of such lists (several series). */
  datatype SeriesInput = Flat(values: seq<real>) | Nested(lists: seq<seq<real>>)

  /** The raw `thickness` key: absent, one number, or a list of numbers. */
  datatype Thickness = NoThickness | Scalar(w: real) | PerSeries(ws: seq<real>)

  /** The raw dataset handed to `formatData`. The colour key is read only by
      the external `getColorFromData`, so it is not a field here. */
  datatype RawData = RawData(series: SeriesInput, index: Option<seq<real>>, thickness: Thickness,
                             xaxis: Option<string>, yaxis: Option<string>)

  /** What the formatter calls outside this file: `utils.getColorFromData`,
      `utils.getColors(n)`, and the default width `Math.exp(2 - 0.003 * n)` for a
      series of `n` points. */
  datatype Externals = Externals(colorFromData: RawData -> seq<Color>,
                                 getColors: nat -> seq<Color>,
                                 autoWidth: nat -> real)

  /** `_.isArray(data.series[0])`: the input counts as several series only when
      it has a first entry and that entry is a list. */
  predicate IsNested(s: SeriesInput)
    ensures IsNested(s) ==> s.Nested? && |s.lists| > 0
    ensures s.Nested? && |s.lists| > 0 ==> IsNested(s)
    ensures s.Flat? ==> !IsNested(s)
    ensures s == Nested([]) ==> !IsNested(s)
  {
    s.Nested? && |s.lists| > 0
  }

  /** The value lists the formatter walks. An empty list of lists has no first
      entry, so it is handled as a flat, empty, single series. */
  function ValueLists(s: SeriesInput): (vs: seq<seq<real>>)
    ensures |vs| >= 1
    ensures IsNested(s) ==> vs == s.lists
    ensures s.Flat? ==> vs == [s.values]
    ensures s.Nested? && |s.lists| == 0 ==> vs == [[]]
  {
    if IsNested(s) then s.lists
    else if s.Flat? then [s.values]
    else [[]]
  }

  /** `data.index ? data.index[i] : i`: the x value of point `i`, undefined when
      the index is shorter than the series. */
  function XAt(index: Option<seq<real>>, i: nat): (x: Option<real>)
    ensures index.None? ==> x == Some(i as real)
    ensures index.Some? ==> (x.Some? <==> i < |index.value|)
    ensures index.Some? && i < |index.value| ==> x.value == index.value[i]
  {
    match index
    case None => Some(i as real)
    case Some(idx) => if i < |idx| then Some(idx[i]) else None
  }

  /** The points of one series: point `i` is `{x: XAt(index, i), y: values[i]}`. */
  function ToPoints(values: seq<real>, index: Option<seq<real>>): (ps: seq<Point>)
    ensures |ps| == |values|
    ensures forall i :: 0 <= i < |values| ==> ps[i].y == values[i] && ps[i].x == XAt(index, i)
  {
    seq(|values|, i requires 0 <= i < |values| => Point(XAt(index, i), values[i]))
  }

  /** The point-construction step of `formatData`: one point list per value
      list, in order, with lengths kept; `y` is the value, `x` comes from the
      index when one is given and from the position otherwise. */
  function BuildPoints(raw: RawData): (lists: seq<seq<Point>>)
    ensures |lists| == |ValueLists(raw.series)|
    ensures forall k :: 0 <= k < |lists| ==> |lists[k]| == |ValueLists(raw.series)[k]|
    ensures forall k, i :: 0 <= k < |lists| && 0 <= i < |lists[k]| ==>
              lists[k][i].y == ValueLists(raw.series)[k][i] && lists[k][i].x == XAt(raw.index, i)
  {
    var vs := ValueLists(raw.series);
    seq(|vs|, k requires 0 <= k < |vs| => ToPoints(vs[k], raw.index))
  }

  /** The broadcast rule `xs.length > 1 ? xs[k] : xs[0]`: a list of several
      entries is read per series, a single entry applies to every series;
      reading past the end gives `undefined`. */
  function Broadcast<T>(xs: seq<T>, k: nat): (r: Option<T>)
    ensures r.Some? <==> |xs| == 1 || k < |xs|
    ensures |xs| == 1 ==> r == Some(xs[0])
    ensures |xs| > 1 && k < |xs| ==> r == Some(xs[k])
  {
    if |xs| > 1 then (if k < |xs| then Some(xs[k]) else None)
    else if |xs| == 1 then Some(xs[0])
    else None
  }

  /** With at most one entry, the broadcast gives every series the same value. */
  lemma BroadcastUniform<T>(xs: seq<T>, k1: nat, k2: nat)
    requires |xs| <= 1
    ensures Broadcast(xs, k1) == Broadcast(xs, k2)
  {
  }

  /** The colours the series draw from: those `getColorFromData` finds, or a
      palette of `count` colours from `getColors` when it finds none. */
  function ResolveColors(raw: RawData, ext: Externals, count: nat): (cs: seq<Color>)
    ensures |ext.colorFromData(raw)| != 0 ==> cs == ext.colorFromData(raw)
    ensures |ext.colorFromData(raw)| == 0 ==> cs == ext.getColors(count)
  {
    var fromData := ext.colorFromData(raw);
    if |fromData| == 0 then ext.getColors(count) else fromData
  }

  /** The explicit width for series `k`: `retThickness = data.thickness || []`
      read by the broadcast rule. A non-zero number is truthy but has no
      `length` and no entry `[0]`; `0` is falsy and becomes `[]`. Either way a
      single number yields `undefined`, exactly as an absent key does. */
  function ExplicitWidth(t: Thickness, k: nat): (w: Option<real>)
    ensures !t.PerSeries? ==> w.None?
    ensures t.PerSeries? ==> w == Broadcast(t.ws, k)
  {
    match t
    case PerSeries(ws) => Broadcast(ws, k)
    case _ => None
  }

  /** `s ? s : Math.max(auto, 1)`: a truthy explicit width is used as is;
      otherwise the default, never below 1. */
  function StrokeWidth(explicit: Option<real>, auto: real): (w: real)
    ensures Truthy(explicit) ==> w == explicit.value
    ensures !Truthy(explicit) ==> w >= 1.0 && w >= auto && (w == 1.0 || w == auto)
  {
    if Truthy(explicit) then explicit.value else Max(auto, 1.0)
  }

  /** The wrapper `{d, i, c, s}` for the point list at position `k`. */
  function Wrap(points: seq<Point>, k: nat, colors: seq<Color>, t: Thickness, ext: Externals): (r: Line)
    ensures r.points == points && r.position == k
    ensures r.color == Broadcast(colors, k)
    ensures Truthy(ExplicitWidth(t, k)) ==> r.width == ExplicitWidth(t, k).value
    ensures !Truthy(ExplicitWidth(t, k)) ==> r.width == Max(ext.autoWidth(|points|), 1.0)
    // a consequence of the previous clause and `Max`: the default is never below 1
    ensures !Truthy(ExplicitWidth(t, k)) ==> r.width >= 1.0 && r.width >= ext.autoWidth(|points|)
  {
    Line(points, k, Broadcast(colors, k), StrokeWidth(ExplicitWidth(t, k), ext.autoWidth(|points|)))
  }

  /** `formatData(data)`. */
  function FormatData(raw: RawData, ext: Externals): (fd: Dataset)
    ensures fd.xaxis == raw.xaxis && fd.yaxis == raw.yaxis
    // one wrapper per point list, in order, each keeping its list and position
    ensures |fd.series| >= 1
    ensures PointLists(fd.series) == BuildPoints(raw)
    ensures forall k :: 0 <= k < |fd.series| ==> fd.series[k].position == k
    // a flat list is exactly one series of the same length
    ensures raw.series.Flat? ==>
              && |fd.series| == 1
              && |fd.series[0].points| == |raw.series.values|
              && forall i :: 0 <= i < |raw.series.values| ==>
                   fd.series[0].points[i] == Point(XAt(raw.index, i), raw.series.values[i])
    // a non-empty list of lists is one series per list, same order and lengths
    ensures IsNested(raw.series) ==>
              && |fd.series| == |raw.series.lists|
              && forall k :: 0 <= k < |fd.series| ==>
                   && |fd.series[k].points| == |raw.series.lists[k]|
                   && forall i :: 0 <= i < |raw.series.lists[k]| ==>
                        fd.series[k].points[i] == Point(XAt(raw.index, i), raw.series.lists[k][i])
    // colours follow the broadcast rule over the resolved colour list
    ensures forall k :: 0 <= k < |fd.series| ==>
              fd.series[k].color == Broadcast(ResolveColors(raw, ext, |fd.series|), k)
    // widths: a truthy explicit width, otherwise a default of at least 1
    ensures forall k :: 0 <= k < |fd.series| ==>
              fd.series[k].width ==
                StrokeWidth(ExplicitWidth(raw.thickness, k), ext.autoWidth(|fd.series[k].points|))
  {
    var lists := BuildPoints(raw);
    var colors := ResolveColors(raw, ext, |lists|);
    var series := seq(|lists|, k requires 0 <= k < |lists| => Wrap(lists[k], k, colors, raw.thickness, ext));
    assert PointLists(series) == lists;
    Dataset(series, raw.xaxis, raw.yaxis)
  }

  /** Every series gets a defined colour exactly when the colour list has one
      entry or at least one per series. */
  lemma ColorsDefined(raw: RawData, ext: Externals)
    ensures var fd := FormatData(raw, ext);
            var cs := ResolveColors(raw, ext, |fd.series|);
            (forall k :: 0 <= k < |fd.series| ==> fd.series[k].color.Some?) <==> (|cs| == 1 || |cs| >= |fd.series|)
  {
    var fd := FormatData(raw, ext);
    var cs := ResolveColors(raw, ext, |fd.series|);
    if !(|cs| == 1 || |cs| >= |fd.series|) {
      var last := |fd.series| - 1;
      assert fd.series[last].color.None?;
    }
  }

  /** When the data names no colour and the palette has one colour per series,
      every series is coloured. */
  lemma PaletteColorsEverySeries(raw: RawData, ext: Externals)
    requires |ext.colorFromData(raw)| == 0
    requires forall n :: |ext.getColors(n)| == n
    ensures forall k :: 0 <= k < |FormatData(raw, ext).series| ==> FormatData(raw, ext).series[k].color.Some?
  {
    ColorsDefined(raw, ext);
  }

  /** Every stroke width is the explicit truthy value or at least 1. */
  lemma WidthsPositive(raw: RawData, ext: Externals)
    ensures forall k :: 0 <= k < |FormatData(raw, ext).series| ==>
              var e := ExplicitWidth(raw.thickness, k);
              var w := FormatData(raw, ext).series[k].width;
              if Truthy(e) then w == e.value else w >= 1.0
  {
  }

  /** A single-number thickness is ignored: the widths are those of a dataset
      without a thickness key. */
  lemma ScalarThicknessIgnored(raw: RawData, ext: Externals, w: real)
    requires raw.thickness == Scalar(w)
    ensures |FormatData(raw, ext).series| == |FormatData(raw.(thickness := NoThickness), ext).series|
    ensures forall k :: 0 <= k < |FormatData(raw, ext).series| ==>
              FormatData(raw, ext).series[k].width == FormatData(raw.(thickness := NoThickness), ext).series[k].width
  {
    var plain := raw.(thickness := NoThickness);
    assert BuildPoints(raw) == BuildPoints(plain);
  }

  /** `[1, 2, 3]` without an index becomes `[{x:0,y:1}, {x:1,y:2}, {x:2,y:3}]`. */
  lemma FlatExample(ext: Externals)
    ensures FormatData(RawData(Flat([1.0, 2.0, 3.0]), None, NoThickness, None, None), ext).series[0].points
              == [Point(Some(0.0), 1.0), Point(Some(1.0), 2.0), Point(Some(2.0), 3.0)]
  {
    var fd := FormatData(RawData(Flat([1.0, 2.0, 3.0]), None, NoThickness, None, None), ext);
    assert |fd.series[0].points| == 3;
  }

  /** `[[1, 2], [3, 4]]` becomes two series, each with x values 0 and 1. */
  lemma NestedExample(ext: Externals)
    ensures var fd := FormatData(RawData(Nested([[1.0, 2.0], [3.0, 4.0]]), None, NoThickness, None, None), ext);
            && |fd.series| == 2
            && fd.series[0].points == [Point(Some(0.0), 1.0), Point(Some(1.0), 2.0)]
            && fd.series[1].points == [Point(Some(0.0), 3.0), Point(Some(1.0), 4.0)]
  {
    var raw := RawData(Nested([[1.0, 2.0], [3.0, 4.0]]), None, NoThickness, None, None);
    var fd := FormatData(raw, ext);
    assert IsNested(raw.series);
    assert |fd.series[0].points| == 2 && |fd.series[1].points| == 2;
  }

  /** An empty list of series is formatted as one empty series. */
  lemma EmptyNestedIsOneEmptySeries(raw: RawData, ext: Externals)
    requires raw.series == Nested([])
    ensures |FormatData(raw, ext).series| == 1
    ensures FormatData(raw, ext).series[0].points == []
  {
    assert BuildPoints(raw)[0] == [];
  }
}
