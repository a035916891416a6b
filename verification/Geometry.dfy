/** Bounds of a quad, and the points of it that a viewport shows, over the reals. */
module Geometry {
  import opened Wrappers

  datatype Point = Point(x: real, y: real)
  datatype Rect = Rect(x: real, y: real, width: real, height: real)
  datatype Axis = X | Y

  /** One side of the viewport: a coordinate is at least, or at most, a boundary. */
  datatype Side = Side(axis: Axis, boundary: real, greater: bool)

  /** The points with a*x + b*y <= c. */
  datatype HalfPlane = HalfPlane(a: real, b: real, c: real)

  function Coord(p: Point, axis: Axis): real {
    match axis case X => p.x case Y => p.y
  }

  predicate Inside(p: Point, side: Side) {
    if side.greater then Coord(p, side.axis) >= side.boundary else Coord(p, side.axis) <= side.boundary
  }

  predicate InHalf(p: Point, h: HalfPlane) {
    h.a * p.x + h.b * p.y <= h.c
  }

  predicate AllInHalf(points: seq<Point>, h: HalfPlane) {
    forall i :: 0 <= i < |points| ==> InHalf(points[i], h)
  }

  function HalfOf(side: Side): HalfPlane {
    match (side.axis, side.greater)
    case (X, true) => HalfPlane(-1.0, 0.0, -side.boundary)
    case (X, false) => HalfPlane(1.0, 0.0, side.boundary)
    case (Y, true) => HalfPlane(0.0, -1.0, -side.boundary)
    case (Y, false) => HalfPlane(0.0, 1.0, side.boundary)
  }

  lemma HalfOfIsSide(p: Point, side: Side)
    ensures InHalf(p, HalfOf(side)) <==> Inside(p, side)
  {
  }

  // ---------- Clipping ----------

  function Toward(a: Point, b: Point, t: real): Point {
    Point(a.x + (b.x - a.x) * t, a.y + (b.y - a.y) * t)
  }

  function Ratio(a: Point, b: Point, side: Side): real
    requires Inside(a, side) != Inside(b, side)
  {
    (side.boundary - Coord(a, side.axis)) / (Coord(b, side.axis) - Coord(a, side.axis))
  }

  /** What one edge adds: its start if that is inside, and where it crosses the side if it does. */
  function ClipEdge(a: Point, b: Point, side: Side): seq<Point> {
    (if Inside(a, side) then [a] else [])
    + if Inside(a, side) != Inside(b, side) then [Toward(a, b, Ratio(a, b, side))] else []
  }

  function Next<T>(s: seq<T>, i: nat): T
    requires i < |s|
  {
    s[(i + 1) % |s|]
  }

  function ClipFirst(polygon: seq<Point>, side: Side, n: nat): seq<Point>
    requires n <= |polygon|
  {
    if n == 0 then [] else ClipFirst(polygon, side, n - 1) + ClipEdge(polygon[n-1], Next(polygon, n - 1), side)
  }

  function Clip(polygon: seq<Point>, side: Side): seq<Point> {
    ClipFirst(polygon, side, |polygon|)
  }

  function ClipAll(polygon: seq<Point>, sides: seq<Side>): seq<Point>
    decreases |sides|
  {
    if sides == [] then polygon else ClipAll(Clip(polygon, sides[0]), sides[1..])
  }

  // ---------- Convexity ----------

  lemma Scale(t: real, u: real, v: real)
    requires 0.0 <= t && u <= v
    ensures t * u <= t * v
  {
  }

  /** A point between two others is in every half-plane that holds both. */
  lemma BetweenInHalf(a: Point, b: Point, t: real, h: HalfPlane)
    requires 0.0 <= t <= 1.0 && InHalf(a, h) && InHalf(b, h)
    ensures InHalf(Toward(a, b, t), h)
  {
    var u, v := h.a * a.x + h.b * a.y, h.a * b.x + h.b * b.y;
    Weighted(h.a, a.x, b.x, t);
    Weighted(h.b, a.y, b.y, t);
    assert h.a * Toward(a, b, t).x + h.b * Toward(a, b, t).y == u + (v - u) * t;
    Blend(u, v, h.c, t);
  }

  lemma Weighted(k: real, u: real, v: real, t: real)
    ensures k * (u + (v - u) * t) == k * u + (k * v - k * u) * t
  {
  }

  lemma Blend(u: real, v: real, c: real, t: real)
    requires 0.0 <= t <= 1.0 && u <= c && v <= c
    ensures u + (v - u) * t <= c
  {
    Bounded(t, v - u, c - u);
    assert (v - u) * t == t * (v - u);
  }

  /** A part of `d` is at most the whole of `e`. */
  lemma Bounded(t: real, d: real, e: real)
    requires 0.0 <= t <= 1.0 && d <= e && 0.0 <= e
    ensures t * d <= e
  {
    var p, q := t * d, t * e;
    Scale(t, d, e);
    assert p <= q;
    Scale(e, t, 1.0);
    assert e * t == q;
    assert e * 1.0 == e;
    assert q <= e;
  }

  lemma Quotient(n: real, d: real)
    requires 0.0 <= n <= d && d > 0.0
    ensures 0.0 <= n / d <= 1.0 && d * (n / d) == n
  {
  }

  /** The crossing lies on the edge, and exactly on the side. */
  lemma CrossingOnSide(a: Point, b: Point, side: Side)
    requires Inside(a, side) != Inside(b, side)
    ensures 0.0 <= Ratio(a, b, side) <= 1.0
    ensures Coord(Toward(a, b, Ratio(a, b, side)), side.axis) == side.boundary
  {
    var n, d := side.boundary - Coord(a, side.axis), Coord(b, side.axis) - Coord(a, side.axis);
    if d > 0.0 {
      Quotient(n, d);
    } else {
      Quotient(-n, -d);
      assert (-n) / (-d) == n / d;
    }
  }

  lemma EdgeInHalf(a: Point, b: Point, side: Side, h: HalfPlane)
    requires InHalf(a, h) && InHalf(b, h)
    ensures AllInHalf(ClipEdge(a, b, side), h)
  {
    if Inside(a, side) != Inside(b, side) {
      CrossingOnSide(a, b, side);
      BetweenInHalf(a, b, Ratio(a, b, side), h);
    }
  }

  lemma {:induction false} ClipInHalf(polygon: seq<Point>, side: Side, n: nat, h: HalfPlane)
    requires n <= |polygon| && AllInHalf(polygon, h)
    ensures AllInHalf(ClipFirst(polygon, side, n), h)
  {
    if n > 0 {
      ClipInHalf(polygon, side, n - 1, h);
      EdgeInHalf(polygon[n-1], Next(polygon, n - 1), side, h);
    }
  }

  lemma EdgeInSide(a: Point, b: Point, side: Side)
    ensures AllInHalf(ClipEdge(a, b, side), HalfOf(side))
  {
    HalfOfIsSide(a, side);
    if Inside(a, side) != Inside(b, side) {
      CrossingOnSide(a, b, side);
      HalfOfIsSide(Toward(a, b, Ratio(a, b, side)), side);
    }
  }

  lemma {:induction false} ClipInSide(polygon: seq<Point>, side: Side, n: nat)
    requires n <= |polygon|
    ensures AllInHalf(ClipFirst(polygon, side, n), HalfOf(side))
  {
    if n > 0 {
      ClipInSide(polygon, side, n - 1);
      EdgeInSide(polygon[n-1], Next(polygon, n - 1), side);
    }
  }

  /** Every pass keeps what held before: the clipped polygon is inside all sides, and in every
      half-plane that holds the polygon it started from. */
  lemma {:induction false} ClipAllSound(polygon: seq<Point>, sides: seq<Side>, h: HalfPlane)
    requires AllInHalf(polygon, h) || exists i :: 0 <= i < |sides| && h == HalfOf(sides[i])
    ensures AllInHalf(ClipAll(polygon, sides), h)
    decreases |sides|
  {
    if sides != [] {
      var once := Clip(polygon, sides[0]);
      if AllInHalf(polygon, h) {
        ClipInHalf(polygon, sides[0], |polygon|, h);
      } else {
        var i :| 0 <= i < |sides| && h == HalfOf(sides[i]);
        if i == 0 {
          ClipInSide(polygon, sides[0], |polygon|);
        } else {
          assert h == HalfOf(sides[1..][i-1]);
        }
      }
      ClipAllSound(once, sides[1..], h);
    }
  }

  /** A polygon that is inside a side already is not changed by its pass, and one that is outside
      disappears. */
  lemma {:induction false} ClipExtremes(polygon: seq<Point>, side: Side, n: nat)
    requires n <= |polygon|
    ensures (forall i :: 0 <= i < |polygon| ==> Inside(polygon[i], side)) ==>
      ClipFirst(polygon, side, n) == polygon[..n]
    ensures (forall i :: 0 <= i < |polygon| ==> !Inside(polygon[i], side)) ==> ClipFirst(polygon, side, n) == []
  {
    if n > 0 {
      ClipExtremes(polygon, side, n - 1);
      assert polygon[..n] == polygon[..n-1] + [polygon[n-1]];
    }
  }

  // ---------- The points ----------

  function SumX(points: seq<Point>): real {
    if points == [] then 0.0 else SumX(points[..|points|-1]) + points[|points|-1].x
  }

  function SumY(points: seq<Point>): real {
    if points == [] then 0.0 else SumY(points[..|points|-1]) + points[|points|-1].y
  }

  function Center(points: seq<Point>): Point
    requires points != []
  {
    Point(SumX(points) / |points| as real, SumY(points) / |points| as real)
  }

  lemma {:induction false} SumInHalf(points: seq<Point>, h: HalfPlane)
    requires AllInHalf(points, h)
    ensures h.a * SumX(points) + h.b * SumY(points) <= h.c * |points| as real
  {
    if points != [] {
      var n := |points| - 1;
      var init, p := points[..n], points[n];
      SumInHalf(init, h);
      assert InHalf(p, h);
      assert h.a * (SumX(init) + p.x) + h.b * (SumY(init) + p.y)
             == (h.a * SumX(init) + h.b * SumY(init)) + (h.a * p.x + h.b * p.y);
      assert h.c * |init| as real + h.c == h.c * |points| as real;
    }
  }

  lemma CenterInHalf(points: seq<Point>, h: HalfPlane)
    requires points != [] && AllInHalf(points, h)
    ensures InHalf(Center(points), h)
  {
    SumInHalf(points, h);
    var n := |points| as real;
    var c := Center(points);
    assert c.x * n == SumX(points) && c.y * n == SumY(points);
    assert (h.a * c.x + h.b * c.y) * n == h.a * (c.x * n) + h.b * (c.y * n);
    Cancel(h.a * c.x + h.b * c.y, h.c, n);
  }

  lemma Cancel(u: real, v: real, n: real)
    requires n > 0.0 && u * n <= v * n
    ensures u <= v
  {
  }

  /** The distances of points from a line across, summed. */
  function OffsetX(points: seq<Point>, x: real): real {
    if points == [] then 0.0 else OffsetX(points[..|points|-1], x) + (points[|points|-1].x - x)
  }

  function OffsetY(points: seq<Point>, y: real): real {
    if points == [] then 0.0 else OffsetY(points[..|points|-1], y) + (points[|points|-1].y - y)
  }

  lemma {:induction false} OffsetsSum(points: seq<Point>, x: real, y: real)
    ensures OffsetX(points, x) == SumX(points) - |points| as real * x
    ensures OffsetY(points, y) == SumY(points) - |points| as real * y
  {
    if points != [] {
      OffsetsSum(points[..|points|-1], x, y);
      assert |points| as real * x == (|points| - 1) as real * x + x;
      assert |points| as real * y == (|points| - 1) as real * y + y;
    }
  }

  /** The points balance around their centre. */
  lemma CenterBalances(points: seq<Point>)
    requires points != []
    ensures OffsetX(points, Center(points).x) == 0.0 && OffsetY(points, Center(points).y) == 0.0
  {
    OffsetsSum(points, Center(points).x, Center(points).y);
  }

  function Midpoint(p: Point, center: Point): Point {
    Point((p.x + center.x) / 2.0, (p.y + center.y) / 2.0)
  }

  lemma MidpointInHalf(p: Point, center: Point, h: HalfPlane)
    requires InHalf(p, h) && InHalf(center, h)
    ensures InHalf(Midpoint(p, center), h)
  {
    BetweenInHalf(p, center, 0.5, h);
    assert Midpoint(p, center) == Toward(p, center, 0.5);
  }

  // ---------- Quads ----------

  function Corners(quad: seq<real>): seq<Point>
    requires |quad| == 8
  {
    [Point(quad[0], quad[1]), Point(quad[2], quad[3]), Point(quad[4], quad[5]), Point(quad[6], quad[7])]
  }

  function Viewport(width: real, height: real): seq<Side> {
    [Side(X, 0.0, true), Side(X, width, false), Side(Y, 0.0, true), Side(Y, height, false)]
  }

  function Cross(polygon: seq<Point>, n: nat): real
    requires n <= |polygon|
  {
    if n == 0 then 0.0
    else
      var a, b := polygon[n-1], Next(polygon, n - 1);
      Cross(polygon, n - 1) + (a.x * b.y - b.x * a.y)
  }

  predicate TooSmall(polygon: seq<Point>) {
    var cross := Cross(polygon, |polygon|);
    |polygon| < 3 || (if cross < 0.0 then -cross else cross) < 0.01
  }
}
