/** The line-plot widget's state: margins fixed at `init`, the drawable area,
    the axis domains recomputed by `setAxis`, and the `updateData` /
    `appendData` mutations of the stored dataset. */
module LinePlot {
  import opened JsValues
  import opened Series
  import opened Extent
  import opened Format

  datatype Margin = Margin(top: int, right: int, bottom: int, left: int)

  /** The margins `init` sets: extra room at the bottom for an x-axis title and
      on the left for a y-axis title, none at the top or right. */
  function InitMargin(data: Dataset): (m: Margin)
    ensures m.top == 0 && m.right == 0
    ensures m.bottom == 57 <==> data.xaxis.Some?
    ensures m.bottom == 20 <==> data.xaxis.None?
    ensures m.left == 85 <==> data.yaxis.Some?
    ensures m.left == 60 <==> data.yaxis.None?
  {
    Margin(0, 0, if data.xaxis.Some? then 57 else 20, if data.yaxis.Some? then 85 else 60)
  }

  datatype Area = Area(width: int, height: int)

  /** The canvas and the border rectangle: what is left of the container once
      the margins are taken off each side. */
  function PlotArea(width: int, height: int, m: Margin): (a: Area)
    ensures m.left + a.width + m.right == width
    ensures m.top + a.height + m.bottom == height
  {
    Area(width - m.left - m.right, height - m.top - m.bottom)
  }

  /** An axis title costs the plot 37 pixels of height (x) or 25 of width (y). */
  lemma TitlesShrinkPlot(width: int, height: int, data: Dataset)
    ensures PlotArea(width, height, InitMargin(data)).width
              == width - 60 - (if data.yaxis.Some? then 25 else 0)
    ensures PlotArea(width, height, InitMargin(data)).height
              == height - 20 - (if data.xaxis.Some? then 37 else 0)
  {
  }

  /** What `setAxis` computes: the x and y extents over all series, and their
      spans (computed but not used further in this widget). */
  datatype Axes = Axes(x: Domain, y: Domain, xSpread: real, ySpread: real)

  /** Some series has at least one point. */
  predicate HasPoints(series: seq<Line>)
  {
    exists k :: 0 <= k < |series| && |series[k].points| > 0
  }

  /** `setAxis`: each domain bounds every defined coordinate and attains both
      bounds; y is defined exactly when some series has a point; spans are
      positive. */
  function SetAxis(series: seq<Line>): (a: Axes)
    ensures IsExtremum(Smallest, PointLists(series), X, a.x.lo)
    ensures IsExtremum(Largest, PointLists(series), X, a.x.hi)
    ensures IsExtremum(Smallest, PointLists(series), Y, a.y.lo)
    ensures IsExtremum(Largest, PointLists(series), Y, a.y.hi)
    ensures a.y.hi.Some? <==> HasPoints(series)
    ensures a.xSpread == Spread(a.x) && a.ySpread == Spread(a.y)
    // a consequence of the previous clause and `Spread`
    ensures a.xSpread > 0.0 && a.ySpread > 0.0
  {
    var lists := PointLists(series);
    NestedExtremumCorrect(Smallest, lists, X);
    NestedExtremumCorrect(Largest, lists, X);
    NestedExtremumCorrect(Smallest, lists, Y);
    NestedExtremumCorrect(Largest, lists, Y);
    YDefinedIffPoints(series);
    var x := NestedExtent(lists, X);
    var y := NestedExtent(lists, Y);
    Axes(x, y, Spread(x), Spread(y))
  }

  /** Every point has a y value, so the y extent is undefined only when there
      are no points at all. */
  lemma YDefinedIffPoints(series: seq<Line>)
    ensures !NoneDefined(PointLists(series), Y) <==> HasPoints(series)
  {
    var lists := PointLists(series);
    if HasPoints(series) {
      var k :| 0 <= k < |series| && |series[k].points| > 0;
      assert Coord(lists[k][0], Y).Some?;
    }
  }

  /** The widget: container size, margins, the stored (formatted) dataset and
      the axis domains last computed from it. */
  datatype Widget = Widget(width: int, height: int, margin: Margin, data: Dataset, axes: Axes)

  /** The axis domains are those of the stored dataset: no zoom state or stale
      data is kept in them. */
  predicate Consistent(w: Widget)
  {
    w.axes == SetAxis(w.data.series)
  }

  /** `init` followed by the first `render`. */
  function Init(width: int, height: int, data: Dataset): (w: Widget)
    ensures w.width == width && w.height == height && w.data == data
    ensures w.margin == InitMargin(data)
    // a consequence of the previous clause and `InitMargin`
    ensures w.margin.left + w.margin.right <= 85 && w.margin.top + w.margin.bottom <= 57
    ensures Consistent(w)
  {
    Widget(width, height, InitMargin(data), data, SetAxis(data.series))
  }

  /** `draw` reads the first point of every stored series (`s.d[0].x`), so
      it can only succeed when no series is empty. */
  predicate Drawable(series: seq<Line>)
    ensures (exists k :: 0 <= k < |series| && series[k].points == []) ==> !Drawable(series)
    ensures Drawable(series) && |series| > 0 ==> |series[0].points| > 0
  {
    forall k :: 0 <= k < |series| ==> |series[k].points| > 0
  }

  /** An empty flat or nested input is formatted into a series that `draw`
      cannot draw. */
  lemma EmptyInputNotDrawable(raw: RawData, ext: Externals)
    requires raw.series == Flat([]) || raw.series == Nested([])
    ensures !Drawable(FormatData(raw, ext).series)
  {
    var fd := FormatData(raw, ext);
    assert |fd.series| == 1 && fd.series[0].points == BuildPoints(raw)[0];
  }

  /** The size the canvas and border rectangle are given. */
  function Canvas(w: Widget): (a: Area)
    ensures w.margin.left + a.width + w.margin.right == w.width
    ensures w.margin.top + a.height + w.margin.bottom == w.height
  {
    PlotArea(w.width, w.height, w.margin)
  }

  /** `updateData`: the stored dataset is replaced; size and margins (set once
      by `init`) stay as they were, even when the new data adds or drops an
      axis title. */
  function UpdateData(w: Widget, fd: Dataset): (w': Widget)
    ensures w'.data == fd
    ensures w'.width == w.width && w'.height == w.height && w'.margin == w.margin
    ensures Canvas(w') == Canvas(w)
    ensures Consistent(w')
  {
    Widget(w.width, w.height, w.margin, fd, SetAxis(fd.series))
  }

  /** `appendData`: the new series are concatenated after the stored ones; the
      other keys of the stored dataset, size and margins are kept. */
  function AppendData(w: Widget, fd: Dataset): (w': Widget)
    ensures |w'.data.series| == |w.data.series| + |fd.series|
    ensures w'.data.series[..|w.data.series|] == w.data.series
    ensures w'.data.series[|w.data.series|..] == fd.series
    ensures w'.data.xaxis == w.data.xaxis && w'.data.yaxis == w.data.yaxis
    ensures w'.width == w.width && w'.height == w.height && w'.margin == w.margin
    ensures Consistent(w')
  {
    var data := w.data.(series := w.data.series + fd.series);
    Widget(w.width, w.height, w.margin, data, SetAxis(data.series))
  }

  /** Appending is updating with the concatenated series list. */
  lemma AppendIsUpdate(w: Widget, fd: Dataset)
    ensures AppendData(w, fd) == UpdateData(w, w.data.(series := w.data.series + fd.series))
  {
  }

  /** Only the last update matters. */
  lemma UpdateLastWins(w: Widget, a: Dataset, b: Dataset)
    ensures UpdateData(UpdateData(w, a), b) == UpdateData(w, b)
  {
  }

  /** Two appends are one append of both series lists, in order. */
  lemma AppendTwice(w: Widget, a: Dataset, b: Dataset)
    ensures AppendData(AppendData(w, a), b) == AppendData(w, a.(series := a.series + b.series))
  {
    var s := w.data.series + a.series + b.series;
    assert s == w.data.series + (a.series + b.series);
    assert AppendData(w, a).data.series + b.series == s;
    assert AppendData(AppendData(w, a), b).data == w.data.(series := s);
    assert AppendData(w, a.(series := a.series + b.series)).data == w.data.(series := s);
  }

  /** Appending nothing changes nothing in a consistent widget. */
  lemma AppendNothing(w: Widget, fd: Dataset)
    requires Consistent(w) && fd.series == []
    ensures AppendData(w, fd) == w
  {
    assert w.data.series + fd.series == w.data.series;
  }

  /** After an append the domains are the union of the stored extents and the
      extents of the appended series. */
  lemma {:induction false} AppendWidensDomains(w: Widget, fd: Dataset)
    requires Consistent(w)
    ensures var a := AppendData(w, fd).axes;
            var n := SetAxis(fd.series);
            && a.x.lo == Join(Smallest, w.axes.x.lo, n.x.lo)
            && a.x.hi == Join(Largest, w.axes.x.hi, n.x.hi)
            && a.y.lo == Join(Smallest, w.axes.y.lo, n.y.lo)
            && a.y.hi == Join(Largest, w.axes.y.hi, n.y.hi)
  {
    var stored, added := w.data.series, fd.series;
    PointListsAppend(stored, added);
    AxesAreExtents(stored);
    AxesAreExtents(added);
    AxesAreExtents(stored + added);
    ExtentAppend(PointLists(stored), PointLists(added), X);
    ExtentAppend(PointLists(stored), PointLists(added), Y);
  }

  /** The point lists of a concatenation are the concatenated point lists. */
  lemma PointListsAppend(a: seq<Line>, b: seq<Line>)
    ensures PointLists(a + b) == PointLists(a) + PointLists(b)
  {
  }

  /** The domains `setAxis` stores are the nested extents of the series. */
  lemma AxesAreExtents(series: seq<Line>)
    ensures SetAxis(series).x == NestedExtent(PointLists(series), X)
    ensures SetAxis(series).y == NestedExtent(PointLists(series), Y)
  {
  }

  /** Appended series keep the positions they were formatted with: they are
      not renumbered after the stored ones. */
  lemma AppendKeepsPositions(w: Widget, fd: Dataset, k: nat)
    requires k < |fd.series|
    ensures AppendData(w, fd).data.series[|w.data.series| + k].position == fd.series[k].position
  {
    assert AppendData(w, fd).data.series[|w.data.series| + k] == fd.series[k];
  }

  /** The y extent of the points of `[10, 20, 15]` is [10, 20]. */
  lemma ExampleYExtent(lists: seq<seq<Point>>)
    requires lists == [[Point(Some(0.0), 10.0), Point(Some(1.0), 20.0), Point(Some(2.0), 15.0)]]
    ensures NestedExtent(lists, Y) == Domain(Some(10.0), Some(20.0))
  {
    assert Coord(lists[0][0], Y) == Some(10.0);
    assert Coord(lists[0][1], Y) == Some(20.0);
    forall k, j | 0 <= k < |lists| && 0 <= j < |lists[k]|
      ensures 10.0 <= Coord(lists[k][j], Y).value <= 20.0
    {
      assert k == 0 && (j == 0 || j == 1 || j == 2);
    }
    NestedExtremumCorrect(Smallest, lists, Y);
    NestedExtremumCorrect(Largest, lists, Y);
    ExtremumUnique(Smallest, lists, Y, NestedExtent(lists, Y).lo, Some(10.0));
    ExtremumUnique(Largest, lists, Y, NestedExtent(lists, Y).hi, Some(20.0));
  }

  /** Formatting `[10, 20, 15]` without an index gives the points (0, 10),
      (1, 20), (2, 15) and no axis titles. */
  lemma ExamplePoints(ext: Externals)
    ensures var fd := FormatData(RawData(Flat([10.0, 20.0, 15.0]), None, NoThickness, None, None), ext);
            && fd.xaxis.None? && fd.yaxis.None?
            && PointLists(fd.series) == [[Point(Some(0.0), 10.0), Point(Some(1.0), 20.0), Point(Some(2.0), 15.0)]]
  {
    var fd := FormatData(RawData(Flat([10.0, 20.0, 15.0]), None, NoThickness, None, None), ext);
    assert |fd.series| == 1 && |fd.series[0].points| == 3;
    assert fd.series[0].points[0] == Point(Some(0.0), 10.0);
    assert fd.series[0].points[1] == Point(Some(1.0), 20.0);
    assert fd.series[0].points[2] == Point(Some(2.0), 15.0);
    assert fd.series[0].points == [Point(Some(0.0), 10.0), Point(Some(1.0), 20.0), Point(Some(2.0), 15.0)];
    assert PointLists(fd.series)[0] == fd.series[0].points;
  }

  /** Without axis titles a 500 by 300 container leaves a 440 by 280 canvas. */
  lemma ExampleCanvas(fd: Dataset)
    requires fd.xaxis.None? && fd.yaxis.None?
    ensures Canvas(Init(500, 300, fd)) == Area(440, 280)
  {
  }

  /** The y domain of a widget over the points of `[10, 20, 15]`. */
  lemma ExampleYDomain(fd: Dataset)
    requires PointLists(fd.series) == [[Point(Some(0.0), 10.0), Point(Some(1.0), 20.0), Point(Some(2.0), 15.0)]]
    ensures Init(500, 300, fd).axes.y == Domain(Some(10.0), Some(20.0))
  {
    ExampleYExtent(PointLists(fd.series));
  }

  /** A 500 by 300 widget showing `[10, 20, 15]`: a 440 by 280 canvas, points
      at x = 0, 1, 2, and a y extent of [10, 20]. */
  lemma RenderExample(ext: Externals)
    ensures var w := Init(500, 300, FormatData(RawData(Flat([10.0, 20.0, 15.0]), None, NoThickness, None, None), ext));
            && Canvas(w) == Area(440, 280)
            && PointLists(w.data.series) == [[Point(Some(0.0), 10.0), Point(Some(1.0), 20.0), Point(Some(2.0), 15.0)]]
            && w.axes.y == Domain(Some(10.0), Some(20.0))
  {
    var fd := FormatData(RawData(Flat([10.0, 20.0, 15.0]), None, NoThickness, None, None), ext);
    ExamplePoints(ext);
    ExampleCanvas(fd);
    ExampleYDomain(fd);
  }
}
