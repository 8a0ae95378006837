/** The formatted data the line plot draws: points, series wrappers and the
    formatted dataset. */
module Series {
  import opened JsValues

  type Color = string

  /** A point `{x, y}`. The y value is always a number; x is `undefined` when an
      explicit index is shorter than the series it labels. */
  datatype Point = Point(x: Option<real>, y: real)

  /** Which coordinate an extent is taken over. */
  datatype Axis = X | Y

  /** The coordinate that the accessors `d => d.x` and `d => d.y` select. */
  function Coord(p: Point, axis: Axis): (c: Option<real>)
    ensures axis == X ==> c == p.x
    ensures axis == Y ==> c.Some? && c.value == p.y
  {
    match axis
    case X => p.x
    case Y => Some(p.y)
  }

  /** A series wrapper `{d, i, c, s}`: its points, the position it was given
      when formatted, its stroke colour (possibly undefined) and stroke width. */
  datatype Line = Line(points: seq<Point>, position: nat, color: Option<Color>, width: real)

  /** A formatted dataset. Only the keys read after formatting are kept: the
      series list, and whether the `xaxis` / `yaxis` title keys are present. */
  datatype Dataset = Dataset(series: seq<Line>, xaxis: Option<string>, yaxis: Option<string>)

  /** The point lists of a list of series wrappers (`series.map(d => d.d)`). */
  function PointLists(series: seq<Line>): (lists: seq<seq<Point>>)
    ensures |lists| == |series|
    ensures forall k :: 0 <= k < |series| ==> lists[k] == series[k].points
  {
    seq(|series|, k requires 0 <= k < |series| => series[k].points)
  }
}
