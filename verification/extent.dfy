/** Extents of the plotted data: `d3.max`/`d3.min` over possibly-undefined
    numbers, the nested extent over a list of point lists, and the span with its
    fallback to 1. */
module Extent {
  import opened JsValues
  import opened Series

  /** `d3.max` looks for the largest value, `d3.min` for the smallest. */
  datatype Order = Largest | Smallest

  /** `a` is at least as extreme as `b` in the direction `o`. */
  predicate Beats(o: Order, a: real, b: real)
  {
    match o
    case Largest => a >= b
    case Smallest => a <= b
  }

  /** `d3.max(vs)` / `d3.min(vs)`: the most extreme defined value, skipping
      undefined entries, and undefined when no entry is defined. */
  function Extremum(o: Order, vs: seq<Option<real>>): (m: Option<real>)
    ensures m.None? <==> forall k :: 0 <= k < |vs| ==> vs[k].None?
    ensures m.Some? ==> m in vs
    ensures m.Some? ==> forall k :: 0 <= k < |vs| && vs[k].Some? ==> Beats(o, m.value, vs[k].value)
    decreases |vs|
  {
    if |vs| == 0 then None
    else
      var rest := Extremum(o, vs[..|vs| - 1]);
      var last := vs[|vs| - 1];
      if last.None? then rest
      else if rest.Some? && Beats(o, rest.value, last.value) then rest
      else last
  }

  /** The selected coordinate of every point of one list (`_.map(arr, map)`). */
  function Coords(points: seq<Point>, axis: Axis): (cs: seq<Option<real>>)
    ensures |cs| == |points|
    ensures forall j :: 0 <= j < |points| ==> cs[j] == Coord(points[j], axis)
  {
    seq(|points|, j requires 0 <= j < |points| => Coord(points[j], axis))
  }

  /** The extremum of each point list, the inner call of the nested extent. */
  function ListExtrema(o: Order, lists: seq<seq<Point>>, axis: Axis): (es: seq<Option<real>>)
    ensures |es| == |lists|
    ensures forall k :: 0 <= k < |lists| ==> es[k] == Extremum(o, Coords(lists[k], axis))
  {
    seq(|lists|, k requires 0 <= k < |lists| => Extremum(o, Coords(lists[k], axis)))
  }

  /** One half of the nested extent: the outer `d3.max`/`d3.min` over the
      per-list extrema. */
  function NestedExtremum(o: Order, lists: seq<seq<Point>>, axis: Axis): (m: Option<real>)
    ensures |lists| == 0 ==> m.None?
    ensures m.Some? ==> m in ListExtrema(o, lists, axis)
  {
    Extremum(o, ListExtrema(o, lists, axis))
  }

  /** No point of any list has a defined coordinate on `axis`. */
  ghost predicate NoneDefined(lists: seq<seq<Point>>, axis: Axis)
  {
    forall k, j :: 0 <= k < |lists| && 0 <= j < |lists[k]| ==> Coord(lists[k][j], axis).None?
  }

  /** Some point has coordinate `v` on `axis`. */
  ghost predicate Attained(lists: seq<seq<Point>>, axis: Axis, v: real)
  {
    exists k, j :: 0 <= k < |lists| && 0 <= j < |lists[k]| && Coord(lists[k][j], axis) == Some(v)
  }

  /** `v` is at least as extreme as every defined coordinate on `axis`. */
  ghost predicate Dominates(o: Order, lists: seq<seq<Point>>, axis: Axis, v: real)
  {
    forall k, j :: 0 <= k < |lists| && 0 <= j < |lists[k]| && Coord(lists[k][j], axis).Some? ==>
      Beats(o, v, Coord(lists[k][j], axis).value)
  }

  /** `m` is the extremum of all defined coordinates on `axis`, or undefined
      exactly when there is none: an independent, non-nested description. */
  ghost predicate IsExtremum(o: Order, lists: seq<seq<Point>>, axis: Axis, m: Option<real>)
  {
    && (m.None? <==> NoneDefined(lists, axis))
    && (m.Some? ==> Dominates(o, lists, axis, m.value) && Attained(lists, axis, m.value))
  }

  /** Taking the extremum list by list and then across lists gives the
      extremum over all points. */
  lemma {:induction false} NestedExtremumCorrect(o: Order, lists: seq<seq<Point>>, axis: Axis)
    ensures IsExtremum(o, lists, axis, NestedExtremum(o, lists, axis))
  {
    var es := ListExtrema(o, lists, axis);
    var m := NestedExtremum(o, lists, axis);
    if m.None? {
      forall k, j | 0 <= k < |lists| && 0 <= j < |lists[k]|
        ensures Coord(lists[k][j], axis).None?
      {
        assert es[k].None?;
        assert Coords(lists[k], axis)[j].None?;
      }
    } else {
      forall k, j | 0 <= k < |lists| && 0 <= j < |lists[k]| && Coord(lists[k][j], axis).Some?
        ensures Beats(o, m.value, Coord(lists[k][j], axis).value)
      {
        var cs := Coords(lists[k], axis);
        assert cs[j].Some?;
        assert es[k].Some? && Beats(o, es[k].value, cs[j].value);
      }
      var k :| 0 <= k < |es| && es[k] == m;
      var cs := Coords(lists[k], axis);
      var j :| 0 <= j < |cs| && cs[j] == m;
      assert Coord(lists[k][j], axis) == Some(m.value);
    }
  }

  /** The extremum over all points is unique. */
  lemma ExtremumUnique(o: Order, lists: seq<seq<Point>>, axis: Axis, m1: Option<real>, m2: Option<real>)
    requires IsExtremum(o, lists, axis, m1) && IsExtremum(o, lists, axis, m2)
    ensures m1 == m2
  {
    if m1.Some? {
      var k1, j1 :| 0 <= k1 < |lists| && 0 <= j1 < |lists[k1]| && Coord(lists[k1][j1], axis) == Some(m1.value);
      var k2, j2 :| 0 <= k2 < |lists| && 0 <= j2 < |lists[k2]| && Coord(lists[k2][j2], axis) == Some(m2.value);
      assert Beats(o, m1.value, m2.value) && Beats(o, m2.value, m1.value);
    }
  }

  /** The extent `[min, max]` that `nestedExtent` returns; either bound is
      undefined when no coordinate is defined. */
  datatype Domain = Domain(lo: Option<real>, hi: Option<real>)

  /** `nestedExtent(lists, accessor)`: the smallest and the largest defined
      coordinate over all point lists. */
  function NestedExtent(lists: seq<seq<Point>>, axis: Axis): (d: Domain)
    ensures d.lo.None? <==> NoneDefined(lists, axis)
    ensures d.hi.None? <==> NoneDefined(lists, axis)
    ensures d.hi.Some? ==> d.lo.Some? && d.lo.value <= d.hi.value
    ensures d.hi.Some? ==>
      forall k, j :: 0 <= k < |lists| && 0 <= j < |lists[k]| && Coord(lists[k][j], axis).Some? ==>
        d.lo.value <= Coord(lists[k][j], axis).value <= d.hi.value
    ensures d.hi.Some? ==> Attained(lists, axis, d.lo.value) && Attained(lists, axis, d.hi.value)
  {
    NestedExtremumCorrect(Smallest, lists, axis);
    NestedExtremumCorrect(Largest, lists, axis);
    var lo := NestedExtremum(Smallest, lists, axis);
    var hi := NestedExtremum(Largest, lists, axis);
    if hi.Some? then
      LowerBelowUpper(lists, axis, lo.value, hi.value);
      Domain(lo, hi)
    else
      Domain(lo, hi)
  }

  /** A lower bound of every coordinate is below any attained coordinate. */
  lemma LowerBelowUpper(lists: seq<seq<Point>>, axis: Axis, lo: real, hi: real)
    requires Dominates(Smallest, lists, axis, lo) && Attained(lists, axis, hi)
    ensures lo <= hi
  {
    var k, j :| 0 <= k < |lists| && 0 <= j < |lists[k]| && Coord(lists[k][j], axis) == Some(hi);
    assert Beats(Smallest, lo, Coord(lists[k][j], axis).value);
  }

  /** `Math.abs(hi - lo) || 1`: the width of the extent, replaced by 1 when it
      is 0 or, with an undefined bound, `NaN`. */
  function Spread(d: Domain): (r: real)
    ensures r > 0.0
    ensures d.lo.Some? && d.hi.Some? && d.lo.value != d.hi.value ==> r == Abs(d.hi.value - d.lo.value)
    ensures d.lo.None? || d.hi.None? || d.lo.value == d.hi.value ==> r == 1.0
  {
    if d.lo.Some? && d.hi.Some? && Abs(d.hi.value - d.lo.value) != 0.0 then Abs(d.hi.value - d.lo.value)
    else 1.0
  }

  /** Every defined coordinate lies within one span above the lower bound. */
  lemma SpreadCovers(lists: seq<seq<Point>>, axis: Axis, k: nat, j: nat)
    requires k < |lists| && j < |lists[k]| && Coord(lists[k][j], axis).Some?
    ensures NestedExtent(lists, axis).lo.Some?
    ensures NestedExtent(lists, axis).lo.value <= Coord(lists[k][j], axis).value
              <= NestedExtent(lists, axis).lo.value + Spread(NestedExtent(lists, axis))
  {
    var d := NestedExtent(lists, axis);
    assert !NoneDefined(lists, axis);
  }

  /** A constant series (every defined coordinate equal, at least one defined)
      has span 1, never 0. */
  lemma ConstantSpread(lists: seq<seq<Point>>, axis: Axis, v: real)
    requires Attained(lists, axis, v)
    requires forall k, j :: 0 <= k < |lists| && 0 <= j < |lists[k]| && Coord(lists[k][j], axis).Some? ==>
               Coord(lists[k][j], axis).value == v
    ensures NestedExtent(lists, axis) == Domain(Some(v), Some(v))
    ensures Spread(NestedExtent(lists, axis)) == 1.0
  {
    var d := NestedExtent(lists, axis);
    assert !NoneDefined(lists, axis);
    var k, j :| 0 <= k < |lists| && 0 <= j < |lists[k]| && Coord(lists[k][j], axis) == Some(d.hi.value);
    var k', j' :| 0 <= k' < |lists| && 0 <= j' < |lists[k']| && Coord(lists[k'][j'], axis) == Some(d.lo.value);
  }

  /** Combining two extrema the way `d3.max`/`d3.min` would over both. */
  function Join(o: Order, a: Option<real>, b: Option<real>): Option<real>
  {
    Extremum(o, [a, b])
  }

  /** A point of `a + b` is a point of `a` or of `b`. */
  lemma AppendPoint(a: seq<seq<Point>>, b: seq<seq<Point>>, k: nat)
    requires k < |a| + |b|
    ensures k < |a| ==> (a + b)[k] == a[k]
    ensures k >= |a| ==> (a + b)[k] == b[k - |a|]
  {
  }

  lemma NoneDefinedAppend(a: seq<seq<Point>>, b: seq<seq<Point>>, axis: Axis)
    ensures NoneDefined(a + b, axis) <==> NoneDefined(a, axis) && NoneDefined(b, axis)
  {
    if NoneDefined(a, axis) && NoneDefined(b, axis) {
      forall k, i | 0 <= k < |a + b| && 0 <= i < |(a + b)[k]|
        ensures Coord((a + b)[k][i], axis).None?
      {
        AppendPoint(a, b, k);
      }
    }
    if NoneDefined(a + b, axis) {
      forall k, i | 0 <= k < |b| && 0 <= i < |b[k]|
        ensures Coord(b[k][i], axis).None?
      {
        AppendPoint(a, b, |a| + k);
      }
      forall k, i | 0 <= k < |a| && 0 <= i < |a[k]|
        ensures Coord(a[k][i], axis).None?
      {
        AppendPoint(a, b, k);
      }
    }
  }

  lemma DominatesAppend(o: Order, a: seq<seq<Point>>, b: seq<seq<Point>>, axis: Axis, v: real)
    requires Dominates(o, a, axis, v) && Dominates(o, b, axis, v)
    ensures Dominates(o, a + b, axis, v)
  {
    forall k, i | 0 <= k < |a + b| && 0 <= i < |(a + b)[k]| && Coord((a + b)[k][i], axis).Some?
      ensures Beats(o, v, Coord((a + b)[k][i], axis).value)
    {
      AppendPoint(a, b, k);
    }
  }

  lemma DominatesWeaker(o: Order, lists: seq<seq<Point>>, axis: Axis, v: real, w: real)
    requires Dominates(o, lists, axis, w) && Beats(o, v, w)
    ensures Dominates(o, lists, axis, v)
  {
  }

  lemma AttainedAppend(a: seq<seq<Point>>, b: seq<seq<Point>>, axis: Axis, v: real)
    requires Attained(a, axis, v) || Attained(b, axis, v)
    ensures Attained(a + b, axis, v)
  {
    if Attained(a, axis, v) {
      var k, i :| 0 <= k < |a| && 0 <= i < |a[k]| && Coord(a[k][i], axis) == Some(v);
      AppendPoint(a, b, k);
      assert Coord((a + b)[k][i], axis) == Some(v);
    } else {
      var k, i :| 0 <= k < |b| && 0 <= i < |b[k]| && Coord(b[k][i], axis) == Some(v);
      AppendPoint(a, b, |a| + k);
      assert Coord((a + b)[|a| + k][i], axis) == Some(v);
    }
  }

  /** Joining the extrema of two parts gives the extremum of their concatenation. */
  lemma JoinIsExtremum(o: Order, a: seq<seq<Point>>, b: seq<seq<Point>>, axis: Axis, ma: Option<real>, mb: Option<real>)
    requires IsExtremum(o, a, axis, ma) && IsExtremum(o, b, axis, mb)
    ensures IsExtremum(o, a + b, axis, Join(o, ma, mb))
  {
    var m := Join(o, ma, mb);
    var pair := [ma, mb];
    assert pair[0] == ma && pair[1] == mb;
    assert m.None? <==> ma.None? && mb.None?;
    NoneDefinedAppend(a, b, axis);
    if m.Some? {
      assert m == ma || m == mb;
      if ma.Some? {
        assert Beats(o, m.value, ma.value);
        DominatesWeaker(o, a, axis, m.value, ma.value);
      }
      if mb.Some? {
        assert Beats(o, m.value, mb.value);
        DominatesWeaker(o, b, axis, m.value, mb.value);
      }
      DominatesAppend(o, a, b, axis, m.value);
      AttainedAppend(a, b, axis, m.value);
    }
  }

  /** The extremum over a concatenation of point lists joins the extrema of
      the two parts. */
  lemma {:induction false} NestedExtremumAppend(o: Order, a: seq<seq<Point>>, b: seq<seq<Point>>, axis: Axis)
    ensures NestedExtremum(o, a + b, axis) == Join(o, NestedExtremum(o, a, axis), NestedExtremum(o, b, axis))
  {
    NestedExtremumCorrect(o, a, axis);
    NestedExtremumCorrect(o, b, axis);
    NestedExtremumCorrect(o, a + b, axis);
    JoinIsExtremum(o, a, b, axis, NestedExtremum(o, a, axis), NestedExtremum(o, b, axis));
    ExtremumUnique(o, a + b, axis, NestedExtremum(o, a + b, axis),
                   Join(o, NestedExtremum(o, a, axis), NestedExtremum(o, b, axis)));
  }

  /** The extent of a concatenation of point lists is the union of the two
      extents: the smaller lower bound and the larger upper bound. */
  lemma ExtentAppend(a: seq<seq<Point>>, b: seq<seq<Point>>, axis: Axis)
    ensures NestedExtent(a + b, axis).lo == Join(Smallest, NestedExtent(a, axis).lo, NestedExtent(b, axis).lo)
    ensures NestedExtent(a + b, axis).hi == Join(Largest, NestedExtent(a, axis).hi, NestedExtent(b, axis).hi)
  {
    NestedExtremumAppend(Smallest, a, b, axis);
    NestedExtremumAppend(Largest, a, b, axis);
  }
}
