/** The distance from a location to a ride's route segment in app/services/ride.py, on exact reals. */
module Geometry {

  datatype Point = Point(x: real, y: real)

  /** Kilometres on the projected plane; `shrink` stands for the cosine of the mean latitude. */
  function Project(latitude: real, longitude: real, shrink: real): Point {
    Point(longitude * 111.32 * shrink, latitude * 110.574)
  }

  /** A degree of latitude is 110.574 km and a degree of longitude 111.32 km, shrunk towards the poles. */
  lemma DegreesApart(lat: real, lon: real, shrink: real)
    ensures var p := Project(lat, lon, shrink);
            && Project(lat + 1.0, lon, shrink).y - p.y == 110.574 && Project(lat + 1.0, lon, shrink).x == p.x
            && Project(lat, lon + 1.0, shrink).x - p.x == 111.32 * shrink && Project(lat, lon + 1.0, shrink).y == p.y
            && Project(0.0, 0.0, shrink) == Point(0.0, 0.0)
  {
    assert (lon + 1.0) * 111.32 * shrink == lon * 111.32 * shrink + 111.32 * shrink;
  }

  function Square(a: real): real {
    a * a
  }

  function Times(a: real, b: real): real {
    a * b
  }

  function DistSq(p: Point, q: Point): real {
    Square(p.x - q.x) + Square(p.y - q.y)
  }

  /** The point at fraction t of the way from `o` to `d`. */
  function Along(o: Point, d: Point, t: real): Point {
    Point(o.x + t * (d.x - o.x), o.y + t * (d.y - o.y))
  }

  function Clamp(t: real): real {
    if t > 1.0 then 1.0 else if t < 0.0 then 0.0 else t
  }

  function LengthSq(o: Point, d: Point): real {
    DistSq(d, o)
  }

  function Dot(p: Point, o: Point, d: Point): real {
    Times(p.x - o.x, d.x - o.x) + Times(p.y - o.y, d.y - o.y)
  }

  /** The fraction at which the service measures the distance. */
  function ClosestFraction(p: Point, o: Point, d: Point): real {
    if LengthSq(o, d) == 0.0 then 0.0 else Clamp(Dot(p, o, d) / LengthSq(o, d))
  }

  /** The square of what `_distance_to_route_segment_km` returns. */
  function RouteDistSq(p: Point, o: Point, d: Point): real {
    if LengthSq(o, d) == 0.0 then DistSq(p, o)
    else DistSq(p, Along(o, d, ClosestFraction(p, o, d)))
  }

  lemma SquareSign(a: real)
    ensures Square(a) >= 0.0
    ensures Square(-a) == Square(a)
  {
  }

  lemma SquarePositive(a: real)
    requires a != 0.0
    ensures Square(a) > 0.0
  {
    if a > 0.0 {
      ProductPositive(a, a);
    } else {
      ProductPositive(-a, -a);
      SquareSign(a);
    }
    assert Times(a, a) == Square(a) && Times(-a, -a) == Square(-a);
  }

  lemma ProductPositive(a: real, b: real)
    requires a > 0.0 && b > 0.0
    ensures Times(a, b) > 0.0
  {
  }

  lemma SquareMonotone(a: real, b: real)
    requires 0.0 <= a <= b
    ensures Square(a) <= Square(b)
    ensures a < b ==> Square(a) < Square(b)
  {
    var e := b - a;
    assert Square(a + e) == Square(a) + 2.0 * (a * e) + Square(e);
    Scaled(a, 0.0, e);
    if a < b {
      SquarePositive(e);
    }
  }

  lemma LengthNonNegative(o: Point, d: Point)
    ensures LengthSq(o, d) >= 0.0
    ensures LengthSq(o, d) == 0.0 ==> o == d
  {
    SquareSign(d.x - o.x);
    SquareSign(d.y - o.y);
    if d.x != o.x {
      SquarePositive(d.x - o.x);
    }
    if d.y != o.y {
      SquarePositive(d.y - o.y);
    }
  }

  function Rise(dot: real, len: real, t: real): real {
    Square(t) * len - 2.0 * (t * dot)
  }

  /** The squared distance at fraction t, for a point at offset (ax, ay) from the origin of a segment (sx, sy). */
  function OffsetDistSq(ax: real, ay: real, sx: real, sy: real, t: real): real {
    Square(ax - t * sx) + Square(ay - t * sy)
  }

  lemma AsOffset(p: Point, o: Point, d: Point, t: real)
    ensures DistSq(p, Along(o, d, t)) == OffsetDistSq(p.x - o.x, p.y - o.y, d.x - o.x, d.y - o.y, t)
  {
  }

  /** The distance along the segment is a parabola in t. */
  lemma Parabola(ax: real, ay: real, sx: real, sy: real, t: real)
    ensures OffsetDistSq(ax, ay, sx, sy, t)
            == (Square(ax) + Square(ay)) + Rise(Times(ax, sx) + Times(ay, sy), Square(sx) + Square(sy), t)
  {
    Expand(ax, t, sx);
    Expand(ay, t, sy);
    RiseAdds(Times(ax, sx), Times(ay, sy), Square(sx), Square(sy), t);
  }

  lemma RiseAdds(a: real, b: real, l: real, m: real, t: real)
    ensures Rise(a + b, l + m, t) == Rise(a, l, t) + Rise(b, m, t)
  {
    Distribute(t, a, b);
    Distribute(Square(t), l, m);
  }

  lemma Expand(a: real, t: real, s: real)
    ensures Square(a - t * s) == Square(a) + Rise(Times(a, s), Square(s), t)
  {
    var m := t * s;
    assert Square(a - m) == Square(a) - 2.0 * (a * m) + Square(m);
    assert a * m == t * (a * s);
    assert Square(m) == Square(t) * Square(s);
  }

  lemma Distribute(k: real, u: real, v: real)
    ensures k * (u + v) == k * u + k * v
  {
  }

  /** Clamping moves the vertex no further away than any other fraction in [0, 1]. */
  lemma ClampIsClosest(v: real, t: real)
    requires 0.0 <= t <= 1.0
    ensures Square(Clamp(v) - v) <= Square(t - v)
  {
    if v > 1.0 {
      SquareMonotone(v - 1.0, v - t);
      SquareSign(v - 1.0);
      SquareSign(v - t);
      assert Clamp(v) - v == -(v - 1.0) && t - v == -(v - t);
    } else if v < 0.0 {
      SquareMonotone(0.0 - v, t - v);
    } else {
      SquareSign(t - v);
    }
  }

  /** Up to a constant the parabola is len * (t - v)^2 around its vertex v. */
  lemma CompletedSquare(len: real, dot: real, v: real, t: real)
    requires dot == v * len
    ensures Rise(dot, len, t) == len * Square(t - v) - len * Square(v)
  {
    assert Square(t - v) == Square(t) - 2.0 * (t * v) + Square(v);
    assert t * dot == len * (t * v);
    Distribute(len, Square(t) - 2.0 * (t * v), Square(v));
    Distribute(len, Square(t), -2.0 * (t * v));
  }

  lemma Scaled(len: real, a: real, b: real)
    requires len >= 0.0 && a <= b
    ensures len * a <= len * b
  {
  }

  lemma CloserToVertexIsLower(len: real, dot: real, v: real, c: real, t: real)
    requires len >= 0.0 && dot == v * len && Square(c - v) <= Square(t - v)
    ensures Rise(dot, len, c) <= Rise(dot, len, t)
  {
    CompletedSquare(len, dot, v, t);
    CompletedSquare(len, dot, v, c);
    Scaled(len, Square(c - v), Square(t - v));
  }

  /**
   * For all real inputs, the measured distance is at most the distance to any point of the segment; a segment of
   * length zero is its single point.
   */
  lemma ClosestPoint(p: Point, o: Point, d: Point, t: real)
    requires 0.0 <= t <= 1.0
    ensures RouteDistSq(p, o, d) <= DistSq(p, Along(o, d, t))
  {
    LengthNonNegative(o, d);
    if LengthSq(o, d) == 0.0 {
      assert Along(o, d, t) == o;
    } else {
      Quotient(Dot(p, o, d), LengthSq(o, d));
      ClosestOnLine(p, o, d, Dot(p, o, d) / LengthSq(o, d), t);
    }
  }

  lemma Quotient(a: real, b: real)
    requires b != 0.0
    ensures a == (a / b) * b
  {
  }

  lemma ClosestOnLine(p: Point, o: Point, d: Point, v: real, t: real)
    requires 0.0 <= t <= 1.0 && LengthSq(o, d) >= 0.0 && Dot(p, o, d) == v * LengthSq(o, d)
    ensures DistSq(p, Along(o, d, Clamp(v))) <= DistSq(p, Along(o, d, t))
  {
    AsOffset(p, o, d, t);
    AsOffset(p, o, d, Clamp(v));
    ClosestFromOffset(p, o, d, v, t);
  }

  lemma ClosestFromOffset(p: Point, o: Point, d: Point, v: real, t: real)
    requires 0.0 <= t <= 1.0 && LengthSq(o, d) >= 0.0 && Dot(p, o, d) == v * LengthSq(o, d)
    ensures OffsetDistSq(p.x - o.x, p.y - o.y, d.x - o.x, d.y - o.y, Clamp(v))
            <= OffsetDistSq(p.x - o.x, p.y - o.y, d.x - o.x, d.y - o.y, t)
  {
    ClosestOffset(p.x - o.x, p.y - o.y, d.x - o.x, d.y - o.y, v, t);
  }

  lemma ClosestOffset(ax: real, ay: real, sx: real, sy: real, v: real, t: real)
    requires 0.0 <= t <= 1.0 && Square(sx) + Square(sy) >= 0.0
    requires Times(ax, sx) + Times(ay, sy) == v * (Square(sx) + Square(sy))
    ensures OffsetDistSq(ax, ay, sx, sy, Clamp(v)) <= OffsetDistSq(ax, ay, sx, sy, t)
  {
    Parabola(ax, ay, sx, sy, t);
    Parabola(ax, ay, sx, sy, Clamp(v));
    ClampIsClosest(v, t);
    CloserToVertexIsLower(Square(sx) + Square(sy), Times(ax, sx) + Times(ay, sy), v, Clamp(v), t);
  }

  /** The measured distance is attained on the segment. */
  lemma ClosestPointIsOnSegment(p: Point, o: Point, d: Point)
    ensures 0.0 <= ClosestFraction(p, o, d) <= 1.0
    ensures RouteDistSq(p, o, d) == DistSq(p, Along(o, d, ClosestFraction(p, o, d)))
  {
  }

  ghost predicate NearRoute(p: Point, o: Point, d: Point, buffer: real) {
    buffer >= 0.0 && exists t: real :: 0.0 <= t <= 1.0 && DistSq(p, Along(o, d, t)) <= Square(buffer)
  }

  /** `distance > buffer` refuses the location; `distance` is the nonnegative root of the squared distance. */
  lemma BufferCheck(p: Point, o: Point, d: Point, distance: real, buffer: real)
    requires distance >= 0.0 && Square(distance) == RouteDistSq(p, o, d)
    ensures !(distance > buffer) <==> NearRoute(p, o, d, buffer)
  {
    ClosestPointIsOnSegment(p, o, d);
    if distance <= buffer {
      SquareMonotone(distance, buffer);
      var t := ClosestFraction(p, o, d);
      assert DistSq(p, Along(o, d, t)) <= Square(buffer);
    } else if buffer >= 0.0 {
      SquareMonotone(buffer, distance);
      forall t: real | 0.0 <= t <= 1.0 ensures DistSq(p, Along(o, d, t)) > Square(buffer) {
        ClosestPoint(p, o, d, t);
      }
    }
  }

  /** Coordinates of a route may be missing, which switches the check off. */
  datatype Route = NoCoordinates | Route(originLat: real, originLon: real, destLat: real, destLon: real)

  /** The check of a reported location against the whole projected route. */
  ghost predicate OnRoute(route: Route, lat: real, lon: real, shrink: real, buffer: real) {
    route.Route? ==>
      NearRoute(Project(lat, lon, shrink),
                Project(route.originLat, route.originLon, shrink),
                Project(route.destLat, route.destLon, shrink), buffer)
  }

  /** `root` is the square root of the projected squared distance; false stands for the 400 response. */
  method ValidateLocationNearRoute(
      route: Route, lat: real, lon: real, shrink: real, buffer: real, root: real) returns (accepted: bool)
    requires route.Route? ==>
               && root >= 0.0
               && Square(root) == RouteDistSq(Project(lat, lon, shrink),
                                             Project(route.originLat, route.originLon, shrink),
                                             Project(route.destLat, route.destLon, shrink))
    ensures accepted <==> OnRoute(route, lat, lon, shrink, buffer)
  {
    if route.NoCoordinates? {
      return true;
    }
    BufferCheck(Project(lat, lon, shrink), Project(route.originLat, route.originLon, shrink),
                Project(route.destLat, route.destLon, shrink), root, buffer);
    accepted := !(root > buffer);
  }
}
