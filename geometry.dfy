/**
 * Polygon geometry shared by both versions of the game: the ray-casting
 * hit test `point_in_polygon`, the shoelace centroid `get_polygon_centroid`
 * and the "first territory containing the click" scan.  Vertices are integer
 * screen coordinates; the divisions the game does in floating point are done
 * here exactly over `real`.
 */
module Geometry {
  import opened Options

  datatype Point = Point(x: int, y: int)

  function Min(a: int, b: int): int { if a <= b then a else b }
  function Max(a: int, b: int): int { if a <= b then b else a }

  /** Python's `int()` on a float: truncation toward zero. */
  function Trunc(r: real): (t: int)
    ensures r >= 0.0 ==> t as real <= r < t as real + 1.0
    ensures r < 0.0 ==> t as real - 1.0 < r <= t as real
  {
    if r >= 0.0 then r.Floor else -((-r).Floor)
  }

  // ---------------------------------------------------------------------
  // point_in_polygon

  /** The edge a-b straddles the horizontal line through p (lower end open, upper end closed)
      and p is not to the right of both ends. */
  predicate InBand(p: Point, a: Point, b: Point)
  {
    p.y > Min(a.y, b.y) && p.y <= Max(a.y, b.y) && p.x <= Max(a.x, b.x)
  }

  /** The x coordinate where the non-horizontal edge a-b meets the horizontal line through p. */
  function XIntersect(p: Point, a: Point, b: Point): real
    requires a.y != b.y
  {
    (p.y - a.y) as real * (b.x - a.x) as real / (b.y - a.y) as real + a.x as real
  }

  /** One toggle of `inside`: the edge qualifies and p lies on or left of the crossing. */
  predicate Crosses(p: Point, a: Point, b: Point)
  {
    InBand(p, a, b) && (a.x == b.x || (a.y != b.y && p.x as real <= XIntersect(p, a, b)))
  }

  /** The number of edges poly[j] -> poly[(j+1) % n], j < k, that p's ray crosses. */
  function Crossings(p: Point, poly: seq<Point>, k: nat): nat
    requires 0 < |poly| && k <= |poly|
  {
    if k == 0 then 0
    else Crossings(p, poly, k - 1) + (if Crosses(p, poly[k - 1], poly[k % |poly|]) then 1 else 0)
  }

  /** The crossing parity over the n closed edges, closing edge n-1 -> 0 included. */
  predicate Inside(p: Point, poly: seq<Point>)
    requires 0 < |poly|
  {
    Crossings(p, poly, |poly|) % 2 == 1
  }

  /** The game's loop: n+1 iterations, vertex i % n paired with the previous vertex,
      the first iteration pairing vertex 0 with itself. */
  method PointInPolygon(p: Point, poly: seq<Point>) returns (inside: bool)
    requires 0 < |poly|
    ensures inside <==> Inside(p, poly)
  {
    var n := |poly|;
    inside := false;
    var prev := poly[0];
    var xinters := 0.0;
    var i := 0;
    while i < n + 1
      invariant 0 <= i <= n + 1
      invariant i <= n ==> prev == poly[if i == 0 then 0 else i - 1]
      invariant inside <==> Crossings(p, poly, if i == 0 then 0 else i - 1) % 2 == 1
    {
      var cur := poly[i % n];
      WrapIndex(i, n);
      var toggles := false;
      if p.y > Min(prev.y, cur.y) && p.y <= Max(prev.y, cur.y) && p.x <= Max(prev.x, cur.x) {
        if prev.y != cur.y {
          xinters := XIntersect(p, prev, cur);
        }
        CrossingUsesFreshIntersect(p, prev, cur, xinters);
        if prev.x == cur.x || p.x as real <= xinters {
          toggles := true;
        }
      }
      assert toggles == Crosses(p, prev, cur);
      if toggles {
        inside := !inside;
      }
      prev := cur;
      i := i + 1;
    }
  }

  /** `i % n` for 0 <= i <= n: i itself, or 0 for the wrap-around iteration. */
  lemma WrapIndex(i: int, n: int)
    requires 0 <= i <= n && 0 < n
    ensures i % n == if i < n then i else 0
  {
  }

  /** Inside the band the edge is never horizontal, so `xinters` has just been computed
      for this edge and the toggle test is exactly Crosses. */
  lemma CrossingUsesFreshIntersect(p: Point, a: Point, b: Point, xinters: real)
    requires InBand(p, a, b)
    requires a.y != b.y ==> xinters == XIntersect(p, a, b)
    ensures a.y != b.y
    ensures Crosses(p, a, b) <==> a.x == b.x || p.x as real <= xinters
  {
  }

  /** A horizontal edge never toggles `inside`; the extra first iteration pairs vertex 0
      with itself, which is such an edge. */
  lemma HorizontalEdgeNeverCrosses(p: Point, a: Point, b: Point)
    requires a.y == b.y
    ensures !Crosses(p, a, b)
  {
  }

  /** A point whose y is greater than every vertex's y, or at most every vertex's y,
      or whose x is greater than every vertex's x, is never inside. */
  lemma {:induction false} OutsideBoundingBox(p: Point, poly: seq<Point>, k: nat)
    requires 0 < |poly| && k <= |poly|
    requires (forall i :: 0 <= i < |poly| ==> p.y > poly[i].y)
          || (forall i :: 0 <= i < |poly| ==> p.y <= poly[i].y)
          || (forall i :: 0 <= i < |poly| ==> p.x > poly[i].x)
    ensures Crossings(p, poly, k) == 0
    ensures k == |poly| ==> !Inside(p, poly)
  {
    if k > 0 {
      OutsideBoundingBox(p, poly, k - 1);
      var a, b := poly[k - 1], poly[k % |poly|];
      assert !InBand(p, a, b);
    }
  }

  /** The axis-aligned rectangle with corners (x0, y0) and (x1, y1), listed counter-clockwise
      in a y-down frame. */
  function Rectangle(x0: int, y0: int, x1: int, y1: int): seq<Point>
  {
    [Point(x0, y0), Point(x1, y0), Point(x1, y1), Point(x0, y1)]
  }

  /** For a rectangle the ray-casting test agrees with the half-open box
      x0 < x <= x1, y0 < y <= y1. */
  lemma RectangleInside(p: Point, x0: int, y0: int, x1: int, y1: int)
    requires x0 < x1 && y0 < y1
    ensures Inside(p, Rectangle(x0, y0, x1, y1)) <==> x0 < p.x <= x1 && y0 < p.y <= y1
  {
    var r := Rectangle(x0, y0, x1, y1);
    assert !Crosses(p, r[0], r[1]);
    assert Crosses(p, r[1], r[2]) <==> y0 < p.y <= y1 && p.x <= x1;
    assert !Crosses(p, r[2], r[3]);
    assert Crosses(p, r[3], r[0]) <==> y0 < p.y <= y1 && p.x <= x0;
    assert Crossings(p, r, 1) == 0;
    assert Crossings(p, r, 2) == (if Crosses(p, r[1], r[2]) then 1 else 0);
    assert Crossings(p, r, 3) == Crossings(p, r, 2);
    assert Crossings(p, r, 4) == Crossings(p, r, 3) + (if Crosses(p, r[3], r[0]) then 1 else 0);
  }

  // ---------------------------------------------------------------------
  // get_polygon_centroid

  /** Cross product of the edge a -> b. */
  function Cross(a: Point, b: Point): int { a.x * b.y - b.x * a.y }

  /** Twice the signed area: the sum of Cross over edges j -> (j+1) % n, j < k. */
  function Shoelace(poly: seq<Point>, k: nat): int
    requires 0 < |poly| && k <= |poly|
  {
    if k == 0 then 0
    else Shoelace(poly, k - 1) + Cross(poly[k - 1], poly[k % |poly|])
  }

  /** The sum of (x0 + x1) * cross over the same edges. */
  function MomentX(poly: seq<Point>, k: nat): int
    requires 0 < |poly| && k <= |poly|
  {
    if k == 0 then 0
    else
      var a, b := poly[k - 1], poly[k % |poly|];
      MomentX(poly, k - 1) + (a.x + b.x) * Cross(a, b)
  }

  /** The sum of (y0 + y1) * cross over the same edges. */
  function MomentY(poly: seq<Point>, k: nat): int
    requires 0 < |poly| && k <= |poly|
  {
    if k == 0 then 0
    else
      var a, b := poly[k - 1], poly[k % |poly|];
      MomentY(poly, k - 1) + (a.y + b.y) * Cross(a, b)
  }

  /** The area-weighted centroid truncated toward zero, or the first vertex
      when the signed area is zero. */
  function CentroidOf(poly: seq<Point>): Point
    requires 0 < |poly|
  {
    var n := |poly|;
    var s := Shoelace(poly, n);
    if s == 0 then poly[0]
    else
      // x_sum / (6 * area) with area = s / 2
      Point(Trunc(MomentX(poly, n) as real / (3 * s) as real),
            Trunc(MomentY(poly, n) as real / (3 * s) as real))
  }

  method PolygonCentroid(poly: seq<Point>) returns (c: Point)
    requires 0 < |poly|
    ensures Shoelace(poly, |poly|) == 0 ==> c == poly[0]
    ensures c == CentroidOf(poly)
  {
    var xSum, ySum, area := 0, 0, 0;
    var n := |poly|;
    for i := 0 to n
      invariant area == Shoelace(poly, i)
      invariant xSum == MomentX(poly, i)
      invariant ySum == MomentY(poly, i)
    {
      var a, b := poly[i], poly[(i + 1) % n];
      var cross := a.x * b.y - b.x * a.y;
      area := area + cross;
      xSum := xSum + (a.x + b.x) * cross;
      ySum := ySum + (a.y + b.y) * cross;
    }
    var half := area as real / 2.0;
    if half == 0.0 {
      return poly[0];
    }
    c := Point(Trunc(xSum as real / (6.0 * half)), Trunc(ySum as real / (6.0 * half)));
  }

  /** Twice the signed area of a rectangle is 2 w h. */
  lemma RectangleShoelace(x0: int, y0: int, x1: int, y1: int)
    ensures Shoelace(Rectangle(x0, y0, x1, y1), 4) == 2 * ((x1 - x0) * (y1 - y0))
  {
    var r := Rectangle(x0, y0, x1, y1);
    assert Shoelace(r, 1) == x0 * y0 - x1 * y0;
    assert Shoelace(r, 2) == Shoelace(r, 1) + (x1 * y1 - x1 * y0);
    assert Shoelace(r, 3) == Shoelace(r, 2) + (x1 * y1 - x0 * y1);
    assert Shoelace(r, 4) == Shoelace(r, 3) + (x0 * y0 - x0 * y1);
  }

  /** The x moment of a rectangle is 3 (x0 + x1) w h. */
  lemma RectangleMomentX(x0: int, y0: int, x1: int, y1: int)
    ensures MomentX(Rectangle(x0, y0, x1, y1), 4) == 3 * (x0 + x1) * ((x1 - x0) * (y1 - y0))
  {
    var r, w, h := Rectangle(x0, y0, x1, y1), x1 - x0, y1 - y0;
    assert MomentX(r, 1) == (x0 + x1) * (-y0 * w);
    assert MomentX(r, 2) == MomentX(r, 1) + 2 * x1 * (x1 * h);
    assert MomentX(r, 3) == MomentX(r, 2) + (x1 + x0) * (y1 * w);
    assert MomentX(r, 4) == MomentX(r, 3) + 2 * x0 * (-x0 * h);
    MomentAlgebra(x0, x1, y0, y1);
  }

  /** The y moment of a rectangle is 3 (y0 + y1) w h. */
  lemma RectangleMomentY(x0: int, y0: int, x1: int, y1: int)
    ensures MomentY(Rectangle(x0, y0, x1, y1), 4) == 3 * (y0 + y1) * ((x1 - x0) * (y1 - y0))
  {
    var r, w, h := Rectangle(x0, y0, x1, y1), x1 - x0, y1 - y0;
    assert MomentY(r, 1) == 2 * y0 * (-y0 * w);
    assert MomentY(r, 2) == MomentY(r, 1) + (y0 + y1) * (x1 * h);
    assert MomentY(r, 3) == MomentY(r, 2) + 2 * y1 * (y1 * w);
    assert MomentY(r, 4) == MomentY(r, 3) + (y1 + y0) * (-x0 * h);
    MomentAlgebra(y0, y1, x0, x1);
    assert (y0 + y1) * (x1 * h) + (y1 + y0) * (-x0 * h) == (y0 + y1) * (w * h);
  }

  /** The polynomial identity behind both moments: with w = u1 - u0 and h = v1 - v0,
      (u0 + u1)(-v0 w) + 2 u1 (u1 h) + (u1 + u0)(v1 w) + 2 u0 (-u0 h) = 3 (u0 + u1) w h. */
  lemma MomentAlgebra(u0: int, u1: int, v0: int, v1: int)
    ensures var w, h := u1 - u0, v1 - v0;
      && (u0 + u1) * (-v0 * w) + (u1 + u0) * (v1 * w) == (u0 + u1) * (w * h)
      && 2 * u1 * (u1 * h) + 2 * u0 * (-u0 * h) == 2 * (u0 + u1) * (w * h)
      && 2 * v0 * (-v0 * w) + 2 * v1 * (v1 * w) == 2 * (v0 + v1) * (w * h)
  {
    var w, h := u1 - u0, v1 - v0;
    calc {
      (u0 + u1) * (-v0 * w) + (u1 + u0) * (v1 * w);
      (u0 + u1) * (w * (v1 - v0));
    }
    calc {
      2 * u1 * (u1 * h) + 2 * u0 * (-u0 * h);
      2 * h * ((u1 - u0) * (u1 + u0));
    }
    calc {
      2 * v0 * (-v0 * w) + 2 * v1 * (v1 * w);
      2 * w * ((v1 - v0) * (v1 + v0));
    }
  }

  /** A moment 3 q a over three times a signed area 2 a is q / 2, for a non-zero a. */
  lemma HalveMoment(q: int, a: int, m: int, s: int)
    requires a != 0 && m == 3 * q * a && s == 2 * a
    ensures m as real / (3 * s) as real == q as real / 2.0
  {
    var ar := a as real;
    assert m as real == 3.0 * q as real * ar;
    assert (3 * s) as real == 6.0 * ar;
  }

  /** The centroid of a non-degenerate axis-aligned rectangle is its centre, truncated. */
  lemma RectangleCentroid(x0: int, y0: int, x1: int, y1: int)
    requires x0 < x1 && y0 < y1
    ensures CentroidOf(Rectangle(x0, y0, x1, y1))
         == Point(Trunc((x0 + x1) as real / 2.0), Trunc((y0 + y1) as real / 2.0))
  {
    var r := Rectangle(x0, y0, x1, y1);
    var a := (x1 - x0) * (y1 - y0);
    assert a > 0;
    var s, mx, my := Shoelace(r, 4), MomentX(r, 4), MomentY(r, 4);
    RectangleShoelace(x0, y0, x1, y1);
    RectangleMomentX(x0, y0, x1, y1);
    RectangleMomentY(x0, y0, x1, y1);
    HalveMoment(x0 + x1, a, mx, s);
    HalveMoment(y0 + y1, a, my, s);
    assert CentroidOf(r) == Point(Trunc(mx as real / (3 * s) as real), Trunc(my as real / (3 * s) as real));
  }

  // ---------------------------------------------------------------------
  // The click scan `for country, data in countries.items(): if point_in_polygon(...): ...; break`

  /** The index of the first polygon, in list order, that holds p, or None. */
  function FirstInside(p: Point, polys: seq<seq<Point>>): (k: Option<nat>)
    requires forall i :: 0 <= i < |polys| ==> 0 < |polys[i]|
    ensures k.Some? ==> k.value < |polys| && Inside(p, polys[k.value])
    ensures k.Some? ==> forall j :: 0 <= j < k.value ==> !Inside(p, polys[j])
    ensures k.None? ==> forall j :: 0 <= j < |polys| ==> !Inside(p, polys[j])
  {
    if polys == [] then None
    else if Inside(p, polys[0]) then Some(0)
    else
      assert forall j :: 0 <= j < |polys| - 1 ==> polys[1..][j] == polys[j + 1];
      match FirstInside(p, polys[1..])
      case Some(i) => Some(i + 1)
      case None => None
  }

  /** The scan stops at the first polygon that holds the point. */
  method FirstContaining(p: Point, polys: seq<seq<Point>>) returns (k: Option<nat>)
    requires forall i :: 0 <= i < |polys| ==> 0 < |polys[i]|
    ensures k == FirstInside(p, polys)
  {
    var i := 0;
    while i < |polys|
      invariant 0 <= i <= |polys|
      invariant forall j :: 0 <= j < i ==> !Inside(p, polys[j])
    {
      var hit := PointInPolygon(p, polys[i]);
      if hit {
        return Some(i);
      }
      i := i + 1;
    }
    return None;
  }
}
