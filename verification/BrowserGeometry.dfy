/** `quadBounds` and `visibleQuadPoints` as the source writes them. */
module BrowserGeometry {
  import opened Wrappers
  import opened Geometry

  function Min(a: real, b: real): real { if a <= b then a else b }
  function Max(a: real, b: real): real { if a >= b then a else b }

  /** `r` spans the values from the least to the greatest. */
  predicate Spans(low: real, extent: real, values: seq<real>) {
    && (forall v :: v in values ==> low <= v <= low + extent)
    && low in values && low + extent in values
  }

  function Xs(quad: seq<real>): seq<real>
    requires |quad| == 8
  {
    [quad[0], quad[2], quad[4], quad[6]]
  }

  function Ys(quad: seq<real>): seq<real>
    requires |quad| == 8
  {
    [quad[1], quad[3], quad[5], quad[7]]
  }

  predicate Equal(values: seq<real>) {
    forall u, v :: u in values && v in values ==> u == v
  }

  /** The smallest rectangle around the corners; a flat or malformed quad has none. */
  method QuadBounds(quad: seq<real>) returns (r: Option<Rect>)
    ensures r.Some? ==> (|quad| == 8 && r.value.width > 0.0 && r.value.height > 0.0)
    ensures r.Some? ==> Spans(r.value.x, r.value.width, Xs(quad)) && Spans(r.value.y, r.value.height, Ys(quad))
    ensures r.None? <==> (|quad| != 8 || Equal(Xs(quad)) || Equal(Ys(quad)))
  {
    if |quad| != 8 { return None; }
    var xs, ys := Xs(quad), Ys(quad);
    var x := Min(Min(xs[0], xs[1]), Min(xs[2], xs[3]));
    var y := Min(Min(ys[0], ys[1]), Min(ys[2], ys[3]));
    var width := Max(Max(xs[0], xs[1]), Max(xs[2], xs[3])) - x;
    var height := Max(Max(ys[0], ys[1]), Max(ys[2], ys[3])) - y;
    assert Spans(x, width, xs) && Spans(y, height, ys);
    if width <= 0.0 || height <= 0.0 { return None; }
    return Some(Rect(x, y, width, height));
  }

  method ClipPass(polygon: seq<Point>, side: Side) returns (result: seq<Point>)
    ensures result == Clip(polygon, side)
  {
    result := [];
    var i := 0;
    while i < |polygon|
      invariant i <= |polygon| && result == ClipFirst(polygon, side, i)
    {
      var a, b := polygon[i], polygon[(i + 1) % |polygon|];
      var insideA, insideB := Inside(a, side), Inside(b, side);
      ghost var before := result;
      if insideA {
        result := result + [a];
      }
      if insideA != insideB {
        var ratio := (side.boundary - Coord(a, side.axis)) / (Coord(b, side.axis) - Coord(a, side.axis));
        result := result + [Toward(a, b, ratio)];
      }
      assert result == before + ClipEdge(a, b, side);
      i := i + 1;
    }
  }

  method Area(polygon: seq<Point>) returns (area: real)
    ensures area == Cross(polygon, |polygon|)
  {
    area := 0.0;
    var i := 0;
    while i < |polygon|
      invariant i <= |polygon| && area == Cross(polygon, i)
    {
      var a, b := polygon[i], polygon[(i + 1) % |polygon|];
      area := area + (a.x * b.y - b.x * a.y);
      i := i + 1;
    }
  }

  /** The point in the middle of the polygon, and those halfway between it and the first four corners. */
  predicate Spread(polygon: seq<Point>, points: seq<Point>) {
    && |points| == 1 + (if |polygon| < 4 then |polygon| else 4)
    && OffsetX(polygon, points[0].x) == 0.0 && OffsetY(polygon, points[0].y) == 0.0
    && forall i :: 0 <= i < |points| - 1 ==>
         points[1 + i].x - polygon[i].x == points[0].x - points[1 + i].x
         && points[1 + i].y - polygon[i].y == points[0].y - points[1 + i].y
  }

  /** At most five points, all in the viewport and in every half-plane that holds the quad. */
  method VisibleQuadPoints(quad: seq<real>, width: real, height: real) returns (r: Option<seq<Point>>)
    ensures r.Some? ==> |quad| == 8 && 1 <= |r.value| <= 5
    ensures r.Some? ==> forall p :: p in r.value ==> 0.0 <= p.x <= width && 0.0 <= p.y <= height
    ensures r.Some? ==> forall h :: AllInHalf(Corners(quad), h) ==> AllInHalf(r.value, h)
    ensures r.Some? ==> Spread(ClipAll(Corners(quad), Viewport(width, height)), r.value)
    ensures r.None? <==> (|quad| != 8 || Equal(Xs(quad)) || Equal(Ys(quad)) || width < 1.0 || height < 1.0
                          || TooSmall(ClipAll(Corners(quad), Viewport(width, height))))
  {
    var bounds := QuadBounds(quad);
    if bounds.None? { return None; }
    if width < 1.0 || height < 1.0 { return None; }
    var sides := Viewport(width, height);
    var polygon := Corners(quad);
    var i := 0;
    while i < |sides|
      invariant i <= |sides| && ClipAll(polygon, sides[i..]) == ClipAll(Corners(quad), sides)
    {
      polygon := ClipPass(polygon, sides[i]);
      assert sides[i..][1..] == sides[i+1..];
      i := i + 1;
    }
    assert polygon == ClipAll(Corners(quad), sides);
    if |polygon| < 3 { return None; }
    var area := Area(polygon);
    if Max(area, -area) < 0.01 { return None; }
    var center := Center(polygon);
    var points := [center];
    i := 0;
    while i < 4 && i < |polygon|
      invariant i <= 4 && i <= |polygon| && |points| == 1 + i && points[0] == center
      invariant forall j :: 0 <= j < i ==> points[1 + j] == Midpoint(polygon[j], center)
    {
      points := points + [Midpoint(polygon[i], center)];
      i := i + 1;
    }
    forall h | AllInHalf(Corners(quad), h) ensures AllInHalf(points, h) {
      ClipAllSound(Corners(quad), sides, h);
      PointsInHalf(polygon, points, center, h);
    }
    InViewport(quad, width, height, polygon, points, center);
    CenterBalances(polygon);
    return Some(points);
  }

  lemma PointsInHalf(polygon: seq<Point>, points: seq<Point>, center: Point, h: HalfPlane)
    requires polygon != [] && AllInHalf(polygon, h) && center == Center(polygon)
    requires 1 <= |points| <= 1 + |polygon| && points[0] == center
    requires forall j :: 0 <= j < |points| - 1 ==> points[1 + j] == Midpoint(polygon[j], center)
    ensures AllInHalf(points, h)
  {
    CenterInHalf(polygon, h);
    forall i | 0 <= i < |points| ensures InHalf(points[i], h) {
      if i > 0 {
        assert points[1 + (i - 1)] == Midpoint(polygon[i-1], center);
        MidpointInHalf(polygon[i-1], center, h);
      }
    }
  }

  lemma InViewport(quad: seq<real>, width: real, height: real, polygon: seq<Point>, points: seq<Point>, center: Point)
    requires |quad| == 8 && polygon == ClipAll(Corners(quad), Viewport(width, height)) && polygon != []
    requires center == Center(polygon) && 1 <= |points| <= 1 + |polygon| && points[0] == center
    requires forall j :: 0 <= j < |points| - 1 ==> points[1 + j] == Midpoint(polygon[j], center)
    ensures forall p :: p in points ==> 0.0 <= p.x <= width && 0.0 <= p.y <= height
  {
    var sides := Viewport(width, height);
    forall i | 0 <= i < |sides| ensures AllInHalf(points, HalfOf(sides[i])) {
      ClipAllSound(Corners(quad), sides, HalfOf(sides[i]));
      PointsInHalf(polygon, points, center, HalfOf(sides[i]));
    }
    forall p | p in points ensures 0.0 <= p.x <= width && 0.0 <= p.y <= height {
      var k :| 0 <= k < |points| && points[k] == p;
      assert InHalf(points[k], HalfOf(sides[0])) && InHalf(points[k], HalfOf(sides[1]));
      assert InHalf(points[k], HalfOf(sides[2])) && InHalf(points[k], HalfOf(sides[3]));
      HalfOfIsSide(p, sides[0]);
      HalfOfIsSide(p, sides[1]);
      HalfOfIsSide(p, sides[2]);
      HalfOfIsSide(p, sides[3]);
    }
  }
}
