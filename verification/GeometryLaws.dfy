/** Clipping loses nothing that is inside, and the area is the area. */
module GeometryLaws {
  import opened Wrappers
  import opened Geometry

  // ---------- Along an edge ----------

  lemma Reversed(a: Point, b: Point, t: real)
    ensures Toward(a, b, t) == Toward(b, a, 1.0 - t)
  {
    Back(a.x, b.x, t);
    Back(a.y, b.y, t);
  }

  lemma Back(u: real, v: real, t: real)
    ensures u + (v - u) * t == v + (u - v) * (1.0 - t)
  {
    assert (u - v) * (1.0 - t) == (u - v) - (u - v) * t;
    assert (u - v) * t == -((v - u) * t);
  }

  /** A part of a part of an edge. */
  lemma PartOfPart(a: Point, b: Point, r: real, s: real)
    ensures Toward(a, Toward(a, b, r), s) == Toward(a, b, r * s)
  {
    assert Toward(a, b, r).x - a.x == (b.x - a.x) * r && Toward(a, b, r).y - a.y == (b.y - a.y) * r;
    Times(b.x - a.x, r, s);
    Times(b.y - a.y, r, s);
  }

  lemma Times(d: real, r: real, s: real)
    ensures (d * r) * s == d * (r * s)
  {
  }

  lemma RatioReversed(a: Point, b: Point, side: Side)
    requires Inside(a, side) != Inside(b, side)
    ensures Ratio(a, b, side) == 1.0 - Ratio(b, a, side)
  {
    var u, v, c := Coord(a, side.axis), Coord(b, side.axis), side.boundary;
    Shares(c - u, v - u, c - v);
  }

  lemma Shares(p: real, d: real, q: real)
    requires d != 0.0 && q == p - d
    ensures p / d == 1.0 - q / -d
  {
    var x, y := p / d, q / -d;
    assert x * d == p;
    assert y * -d == q;
    assert (1.0 - y) * d == d + y * -d;
    Cancel(x, 1.0 - y, d);
  }

  lemma Cancel(x: real, z: real, d: real)
    requires d != 0.0 && x * d == z * d
    ensures x == z
  {
    assert (x - z) * d == 0.0;
  }

  /** From an inside point an edge stays inside up to its crossing and no further. */
  lemma InsideUpTo(a: Point, b: Point, side: Side, t: real)
    requires Inside(a, side) && !Inside(b, side) && 0.0 <= t <= 1.0
    ensures Inside(Toward(a, b, t), side) <==> t <= Ratio(a, b, side)
  {
    var u, v, c := Coord(a, side.axis), Coord(b, side.axis), side.boundary;
    var w := Coord(Toward(a, b, t), side.axis);
    if side.greater {
      Falls(u, v, c, t, w);
    } else {
      Rises(u, v, c, t, w);
    }
  }

  lemma Falls(u: real, v: real, c: real, t: real, w: real)
    requires v < c <= u && w == u + (v - u) * t
    ensures w >= c <==> t <= (c - u) / (v - u)
  {
    var d := u - v;
    assert (v - u) * t == -(d * t);
    Below(d, u - c, t);
    Shares2(u - c, d);
  }

  lemma Rises(u: real, v: real, c: real, t: real, w: real)
    requires u <= c < v && w == u + (v - u) * t
    ensures w <= c <==> t <= (c - u) / (v - u)
  {
    Below(v - u, c - u, t);
  }

  lemma Shares2(p: real, d: real)
    requires d != 0.0
    ensures p / d == -p / -d
  {
  }

  lemma Below(d: real, e: real, t: real)
    requires d > 0.0
    ensures d * t <= e <==> t <= e / d
  {
    var r := e / d;
    assert e == d * r;
    if t <= r { Scale(d, t, r); }
    if t > r { Scaled(d, r, t); }
  }

  lemma Scaled(d: real, r: real, t: real)
    requires d > 0.0 && r < t
    ensures d * r < d * t
  {
  }

  /** What lies between an inside point and the crossing is in every half-plane that holds these two. */
  lemma PartInHalf(a: Point, b: Point, side: Side, t: real, h: HalfPlane)
    requires Inside(a, side) && !Inside(b, side) && 0.0 <= t <= 1.0 && Inside(Toward(a, b, t), side)
    requires InHalf(a, h) && InHalf(Toward(a, b, Ratio(a, b, side)), h)
    ensures InHalf(Toward(a, b, t), h)
  {
    var r := Ratio(a, b, side);
    CrossingOnSide(a, b, side);
    InsideUpTo(a, b, side, t);
    if t == 0.0 {
      assert Toward(a, b, t) == a;
    } else {
      Quotient(t, r);
      PartOfPart(a, b, r, t / r);
      BetweenInHalf(a, Toward(a, b, r), t / r, h);
    }
  }

  lemma OutsideStays(a: Point, b: Point, side: Side, t: real)
    requires !Inside(a, side) && !Inside(b, side) && 0.0 <= t <= 1.0
    ensures !Inside(Toward(a, b, t), side)
  {
    var u, v, c := Coord(a, side.axis), Coord(b, side.axis), side.boundary;
    var w := Coord(Toward(a, b, t), side.axis);
    Between(u, v, t, w);
  }

  lemma Between(u: real, v: real, t: real, w: real)
    requires 0.0 <= t <= 1.0 && w == u + (v - u) * t
    ensures u <= w <= v || v <= w <= u
  {
    var d := v - u;
    assert w - u == d * t;
    if 0.0 <= d {
      Share(d, t);
      assert 0.0 <= w - u <= v - u;
    } else {
      var e := -d;
      Share(e, t);
      assert e * t == -(d * t);
      assert 0.0 <= u - w <= u - v;
    }
  }

  lemma Share(d: real, t: real)
    requires 0.0 <= d && 0.0 <= t <= 1.0
    ensures 0.0 <= d * t <= d
  {
    Scale(d, 0.0, t);
    Scale(d, t, 1.0);
  }

  // ---------- Nothing inside is cut off ----------

  lemma {:induction false} EdgeKept(polygon: seq<Point>, side: Side, n: nat, i: nat)
    requires i < n <= |polygon|
    ensures forall q :: q in ClipEdge(polygon[i], Next(polygon, i), side) ==> q in ClipFirst(polygon, side, n)
    decreases n
  {
    if i < n - 1 { EdgeKept(polygon, side, n - 1, i); }
  }

  /** A half-plane that holds the clipped polygon holds every point of the old outline that is inside
      the side: the clipping has cut off nothing else. */
  lemma OutlineKept(polygon: seq<Point>, side: Side, i: nat, t: real, h: HalfPlane)
    requires i < |polygon| && 0.0 <= t <= 1.0
    requires AllInHalf(Clip(polygon, side), h) && Inside(Toward(polygon[i], Next(polygon, i), t), side)
    ensures InHalf(Toward(polygon[i], Next(polygon, i), t), h)
  {
    var a, b := polygon[i], Next(polygon, i);
    var j := (i + 1) % |polygon|;
    EdgeKept(polygon, side, |polygon|, i);
    EdgeKept(polygon, side, |polygon|, j);
    Held(Clip(polygon, side), h);
    if Inside(a, side) && Inside(b, side) {
      assert a in ClipEdge(a, b, side) && b in ClipEdge(b, Next(polygon, j), side);
      BetweenInHalf(a, b, t, h);
    } else if Inside(a, side) {
      assert a in ClipEdge(a, b, side) && Toward(a, b, Ratio(a, b, side)) in ClipEdge(a, b, side);
      PartInHalf(a, b, side, t, h);
    } else if Inside(b, side) {
      assert b in ClipEdge(b, Next(polygon, j), side) && Toward(a, b, Ratio(a, b, side)) in ClipEdge(a, b, side);
      Reversed(a, b, t);
      Reversed(a, b, Ratio(a, b, side));
      RatioReversed(a, b, side);
      PartInHalf(b, a, side, 1.0 - t, h);
    } else {
      OutsideStays(a, b, side, t);
    }
  }

  lemma Held(points: seq<Point>, h: HalfPlane)
    requires AllInHalf(points, h)
    ensures forall q :: q in points ==> InHalf(q, h)
  {
    forall q | q in points ensures InHalf(q, h) {
      var k :| 0 <= k < |points| && points[k] == q;
    }
  }

  // ---------- The area ----------

  function Rectangle(r: Rect): seq<Point> {
    [Point(r.x, r.y), Point(r.x + r.width, r.y), Point(r.x + r.width, r.y + r.height), Point(r.x, r.y + r.height)]
  }

  /** What decides whether a polygon is too small is twice its area. */
  lemma CrossOfRectangle(r: Rect)
    ensures Cross(Rectangle(r), 4) == 2.0 * (r.width * r.height)
  {
    var p := Rectangle(r);
    assert Next(p, 0) == p[1] && Next(p, 1) == p[2] && Next(p, 2) == p[3] && Next(p, 3) == p[0];
    var x, y, w, h := r.x, r.y, r.width, r.height;
    assert Cross(p, 0) == 0.0;
    assert Cross(p, 1) == Cross(p, 0) + (p[0].x * p[1].y - p[1].x * p[0].y);
    assert Cross(p, 2) == Cross(p, 1) + (p[1].x * p[2].y - p[2].x * p[1].y);
    assert Cross(p, 3) == Cross(p, 2) + (p[2].x * p[3].y - p[3].x * p[2].y);
    assert Cross(p, 4) == Cross(p, 3) + (p[3].x * p[0].y - p[0].x * p[3].y);
    Products(x, y, w, h);
  }

  lemma Products(x: real, y: real, w: real, h: real)
    ensures (x * y - (x + w) * y) + ((x + w) * (y + h) - (x + w) * y)
      + ((x + w) * (y + h) - x * (y + h)) + (x * y - x * (y + h)) == 2.0 * (w * h)
  {
    assert (x + w) * y == x * y + w * y;
    assert (x + w) * (y + h) == x * y + x * h + w * y + w * h;
    assert x * (y + h) == x * y + x * h;
  }
}
