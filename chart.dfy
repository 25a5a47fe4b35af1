/** The pure geometry of src/components/Chart.tsx: the plot bounds, the states drawn
    as points, the clipping of the saturation line at the top of the plot, and the
    minor grid ticks. The tick positions themselves come from d3 and are inputs. */
module Chart {
  import opened Js
  import opened Psychroid
  import opened App

  datatype Bounds = Bounds(xMin: real, xMax: real, yMin: real, yMax: real)

  /** The plot area: dry-bulb temperature on x, humidity ratio on y. */
  function PlotBounds(isSI: bool): (b: Bounds)
    ensures b.xMin < b.xMax && b.yMin < b.yMax
    ensures b.yMin == 0.0 && b.yMax == 0.03
  {
    Bounds(if isSI then -15.0 else 5.0, if isSI then 40.0 else 104.0, 0.0, 0.03)
  }

  /** The chart's x range is the dry-bulb range the chart lines are generated over. */
  lemma PlotBoundsMatchLineRange(isSI: bool)
    ensures PlotBounds(isSI).xMin == LineTMin(isSI) && PlotBounds(isSI).xMax == LineTMax(isSI)
  {
  }

  predicate InBounds(b: Bounds, s: State)
    ensures InBounds(b, s) ==> b.xMin <= b.xMax && b.yMin <= b.yMax
  {
    b.xMin <= s.tDryBulb <= b.xMax && b.yMin <= s.humidityRatio <= b.yMax
  }

  /** `filteredStates`: the states drawn as points. */
  function FilteredStates(states: seq<State>, b: Bounds): (r: seq<State>)
    ensures |r| <= |states|
    ensures forall i :: 0 <= i < |r| ==> r[i] in states && InBounds(b, r[i])
    ensures forall j :: 0 <= j < |states| && InBounds(b, states[j]) ==> states[j] in r
  {
    Filter(states, (s: State) => InBounds(b, s))
  }

  /** The filter keeps the order of the states: filtering a list split in two filters
      each part and keeps the parts in order, and a single state is kept exactly when
      it lies within the bounds. */
  lemma FilteredStatesKeepOrder(a: seq<State>, c: seq<State>, b: Bounds, s: State)
    ensures FilteredStates(a + c, b) == FilteredStates(a, b) + FilteredStates(c, b)
    ensures FilteredStates([s], b) == if InBounds(b, s) then [s] else []
  {
    FilterDistributes(a, c, (s: State) => InBounds(b, s));
  }

  // ---------------------------------------------------------------------------
  // The saturation line
  // ---------------------------------------------------------------------------

  /** `data.findIndex(point => point.y > yMax)`. */
  function FindIndexAbove(data: seq<Point>, yMax: real): (k: int)
    ensures -1 <= k < |data|
    ensures k == -1 <==> forall i :: 0 <= i < |data| ==> data[i].y <= yMax
    ensures k >= 0 ==> data[k].y > yMax && forall i :: 0 <= i < k ==> data[i].y <= yMax
  {
    if data == [] then -1
    else if data[0].y > yMax then 0
    else
      var k := FindIndexAbove(data[1..], yMax);
      if k == -1 then -1 else k + 1
  }

  /** The clipped saturation line, or what goes wrong computing it: reading a point of
      a line with fewer than two points (`undefined.y` throws), or dividing by a zero
      rise between the last two points. */
  datatype Clip = Clipped(points: seq<Point>) | ReadUndefined | NonFiniteX

  /** The point at height `yMax` on the straight line through `p0` and `p1`. */
  function PointAtHeight(p0: Point, p1: Point, yMax: real): (r: Option<Point>)
    ensures r.Some? <==> p1.y != p0.y
    ensures r.Some? ==> r.value.y == yMax && (r.value.x - p0.x) * (p1.y - p0.y) == (yMax - p0.y) * (p1.x - p0.x)
  {
    match Divide(yMax - p0.y, p1.y - p0.y)
    case NonFinite => None
    case Finite(t) => Some(Point(p0.x + t * (p1.x - p0.x), yMax))
  }

  /** The last RH line, `{ data: [] }` when there is none. */
  function Rh100Line(rhLines: seq<Line>): (r: seq<Point>)
    ensures rhLines == [] ==> r == []
    ensures rhLines != [] ==> r == rhLines[|rhLines| - 1].data
  {
    if |rhLines| > 0 then rhLines[|rhLines| - 1].data else []
  }

  /** `rh100LineClipped`: the points before the first one above `yMax` followed by the
      crossing of `yMax`, or, when no point but possibly the first one is above, all
      points followed by the extension of the last segment to `yMax`. */
  function ClipAtTop(data: seq<Point>, yMax: real): (r: Clip)
    ensures r == ReadUndefined <==> FindIndexAbove(data, yMax) <= 0 && |data| < 2
    ensures r.Clipped? ==> |r.points| >= 2 && r.points[|r.points| - 1].y == yMax
    ensures r.Clipped? && FindIndexAbove(data, yMax) > 0 ==>
      r.points[..|r.points| - 1] == data[..FindIndexAbove(data, yMax)]
    ensures r.Clipped? && FindIndexAbove(data, yMax) <= 0 ==> r.points[..|r.points| - 1] == data
  {
    var k := FindIndexAbove(data, yMax);
    if k != -1 && k > 0 then
      match PointAtHeight(data[k - 1], data[k], yMax)
      case Some(q) => Clipped(data[..k] + [q])
      case None => NonFiniteX
    else if |data| < 2 then ReadUndefined
    else
      match PointAtHeight(data[|data| - 2], data[|data| - 1], yMax)
      case Some(q) => Clipped(data + [q])
      case None => NonFiniteX
  }

  /** When a point after the first rises above `yMax`, the line is cut there: the
      kept points are all at or below `yMax`, and the added point, at height `yMax`,
      lies on the segment into the first point above, between its two ends. */
  lemma ClipInterpolates(data: seq<Point>, yMax: real)
    requires FindIndexAbove(data, yMax) > 0
    ensures var k := FindIndexAbove(data, yMax);
      && data[k - 1].y <= yMax < data[k].y
      && ClipAtTop(data, yMax).Clipped?
      && var pts := ClipAtTop(data, yMax).points;
      && |pts| == k + 1 && pts[..k] == data[..k]
      && (forall i :: 0 <= i < |pts| ==> pts[i].y <= yMax)
      && pts[k] == PointAtHeight(data[k - 1], data[k], yMax).value
      && Between(pts[k].x, data[k - 1].x, data[k].x)
  {
    var k := FindIndexAbove(data, yMax);
    var p0, p1 := data[k - 1], data[k];
    assert p0.y <= yMax < p1.y;
    CrossingBetween(p0, p1, yMax);
    var q := PointAtHeight(p0, p1, yMax).value;
    assert ClipAtTop(data, yMax) == Clipped(data[..k] + [q]);
    var pts := data[..k] + [q];
    assert pts[..k] == data[..k];
  }

  ghost predicate Between(x: real, a: real, b: real)
  {
    (a <= x <= b) || (b <= x <= a)
  }

  /** The crossing of a rising segment with a height between its ends lies between
      the ends' x coordinates. */
  lemma CrossingBetween(p0: Point, p1: Point, yMax: real)
    requires p0.y <= yMax < p1.y
    ensures PointAtHeight(p0, p1, yMax).Some?
    ensures Between(PointAtHeight(p0, p1, yMax).value.x, p0.x, p1.x)
  {
    var t := (yMax - p0.y) / (p1.y - p0.y);
    assert 0.0 <= t < 1.0 by { FractionInUnit(yMax - p0.y, p1.y - p0.y); }
    assert PointAtHeight(p0, p1, yMax).value.x == p0.x + t * (p1.x - p0.x);
    WeightedPointBetween(p0.x, p1.x, t);
  }

  lemma FractionInUnit(a: real, d: real)
    requires 0.0 <= a < d
    ensures 0.0 <= a / d < 1.0
  {
  }

  lemma WeightedPointBetween(a: real, b: real, t: real)
    requires 0.0 <= t <= 1.0
    ensures Between(a + t * (b - a), a, b)
  {
    var d := b - a;
    assert (1.0 - t) * d == d - t * d;
    if d >= 0.0 {
      MulNonneg(t, d);
      MulNonneg(1.0 - t, d);
    } else {
      MulNonneg(t, -d);
      MulNonneg(1.0 - t, -d);
    }
  }

  lemma MulNonneg(x: real, y: real)
    requires x >= 0.0 && y >= 0.0
    ensures x * y >= 0.0
  {
  }

  /** When no point after the first rises above `yMax`, the whole line is kept and the
      last segment is extended to `yMax`, which needs two points and a rising or falling
      last segment. */
  lemma ClipExtrapolates(data: seq<Point>, yMax: real)
    requires FindIndexAbove(data, yMax) <= 0
    ensures |data| < 2 ==> ClipAtTop(data, yMax) == ReadUndefined
    ensures |data| >= 2 ==>
      var q := PointAtHeight(data[|data| - 2], data[|data| - 1], yMax);
      ClipAtTop(data, yMax) == if q.Some? then Clipped(data + [q.value]) else NonFiniteX
  {
  }

  /** The line the chart clips is the 100 % line of the generated RH lines. */
  lemma ClippedLineIsSaturation<Air>(lib: Library<Air>, pressure: real, isSI: bool)
    ensures Rh100Line(RhLines(lib, pressure, isSI)) ==
      lib.relativeHumidityLine(1.0, pressure, LineTMin(isSI), LineTMax(isSI), isSI)
    ensures RhLines(lib, pressure, isSI)[9].lineLabel == "100%"
  {
    RhLineValues(9);
  }

  // ---------------------------------------------------------------------------
  // Minor grid ticks
  // ---------------------------------------------------------------------------

  /** `majorTicks.some(mt => Math.abs(mt - t) < 1e-6)`. */
  predicate NearMajor(majorTicks: seq<real>, t: real)
    ensures NearMajor(majorTicks, t) ==> |majorTicks| > 0
    ensures forall i :: 0 <= i < |majorTicks| && majorTicks[i] == t ==> NearMajor(majorTicks, t)
  {
    exists i :: 0 <= i < |majorTicks| && Abs(majorTicks[i] - t) < 0.000001
  }

  /** The finer ticks that are not within 1e-6 of a major tick. */
  function MinorTicks(majorTicks: seq<real>, finerTicks: seq<real>): (r: seq<real>)
    ensures |r| <= |finerTicks|
    ensures forall i :: 0 <= i < |r| ==> r[i] in finerTicks && !NearMajor(majorTicks, r[i])
    ensures forall j :: 0 <= j < |finerTicks| && !NearMajor(majorTicks, finerTicks[j]) ==> finerTicks[j] in r
  {
    Filter(finerTicks, (t: real) => !NearMajor(majorTicks, t))
  }

  /** No minor tick coincides with a major one, and both kinds together cover every
      finer tick. */
  lemma MinorTicksAvoidMajor(majorTicks: seq<real>, finerTicks: seq<real>)
    ensures forall i, j :: 0 <= i < |MinorTicks(majorTicks, finerTicks)| && 0 <= j < |majorTicks| ==>
      MinorTicks(majorTicks, finerTicks)[i] != majorTicks[j]
    ensures forall j :: 0 <= j < |finerTicks| ==>
      finerTicks[j] in MinorTicks(majorTicks, finerTicks) || NearMajor(majorTicks, finerTicks[j])
  {
    var minor := MinorTicks(majorTicks, finerTicks);
    forall i, j | 0 <= i < |minor| && 0 <= j < |majorTicks|
      ensures minor[i] != majorTicks[j]
    {
      if minor[i] == majorTicks[j] {
        assert Abs(majorTicks[j] - minor[i]) < 0.000001;
        assert NearMajor(majorTicks, minor[i]);
      }
    }
  }

  // ---------------------------------------------------------------------------
  // The unit-system flag the application renders the chart with
  // ---------------------------------------------------------------------------

  /** The application renders the chart without an `isSI` attribute, so the chart reads
      `undefined`, which is falsy. */
  const RenderedIsSI: Option<bool> := None

  /** The bounds the rendered chart uses. */
  function RenderedBounds(): (b: Bounds)
    ensures b == PlotBounds(false)
  {
    PlotBounds(Truthy(RenderedIsSI))
  }

  /** The bounds the chart uses when it is given the application's unit system. */
  function AppBounds(): (b: Bounds)
    ensures b.xMin == LineTMin(IsSI) && b.xMax == LineTMax(IsSI)
  {
    PlotBounds(IsSI)
  }

  /** The rendered chart's x range is not the range the application generates its lines
      over, and a state at 0 °C, inside the SI plot and below saturation, is not drawn. */
  lemma RenderedChartDropsColdStates()
    ensures RenderedBounds().xMin != LineTMin(IsSI) && RenderedBounds().xMax != LineTMax(IsSI)
    ensures var s := State(0, 0.0, 0.003, -1.0, -3.0, 0.8, 7.5, 1.29, 0.5);
      FilteredStates([s], RenderedBounds()) == [] && FilteredStates([s], AppBounds()) == [s]
  {
    var s := State(0, 0.0, 0.003, -1.0, -3.0, 0.8, 7.5, 1.29, 0.5);
    FilteredStatesKeepOrder([], [], RenderedBounds(), s);
    FilteredStatesKeepOrder([], [], AppBounds(), s);
  }
}
