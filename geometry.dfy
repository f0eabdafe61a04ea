/** Plain geometry shared by every part of the simulation: integer tile points,
    real-valued vectors, the eight neighbour offsets, and distance comparisons done
    on squared lengths so that no square root is needed. */
module Geometry {

  /** An integer pair: a tile coordinate (or a cursor position in whole pixels). */
  datatype Point = Point(x: int, y: int) {
    function Plus(o: Point): Point { Point(x + o.x, y + o.y) }
  }

  /** The sentinel coordinate {-1, -1} that agents use for "no target tile". */
  const NoTile: Point := Point(-1, -1)

  /** A float pair, modelled with reals (positions, directions, origins). */
  datatype Vector2 = Vector2(x: real, y: real) {
    function Add(o: Vector2): Vector2 { Vector2(x + o.x, y + o.y) }
    function Sub(o: Vector2): Vector2 { Vector2(x - o.x, y - o.y) }
    function Scale(k: real): Vector2 { Vector2(x * k, y * k) }
  }

  const Zero: Vector2 := Vector2(0.0, 0.0)

  /** An axis-aligned rectangle, as raylib's Rectangle. */
  datatype Rectangle = Rectangle(x: real, y: real, width: real, height: real)

  /** The offsets North, North-East, East, South-East, South, South-West, West,
      North-West, in this order. */
  const NeighbourOffsets: seq<Point> :=
    [Point(0, -1), Point(1, -1), Point(1, 0), Point(1, 1),
     Point(0, 1), Point(-1, 1), Point(-1, 0), Point(-1, -1)]

  function Neighbour(c: Point, k: nat): Point
    requires k < 8
  {
    c.Plus(NeighbourOffsets[k])
  }

  /** The eight tiles around `c`, in the order of NeighbourOffsets. */
  function Neighbours(c: Point): (r: seq<Point>)
    ensures |r| == 8
    ensures forall k :: 0 <= k < 8 ==> r[k] == Neighbour(c, k)
  {
    [Neighbour(c, 0), Neighbour(c, 1), Neighbour(c, 2), Neighbour(c, 3),
     Neighbour(c, 4), Neighbour(c, 5), Neighbour(c, 6), Neighbour(c, 7)]
  }

  /** 8-connectivity: distinct tiles at most one step apart on each axis. */
  predicate Adjacent(a: Point, b: Point)
  {
    a != b && -1 <= b.x - a.x <= 1 && -1 <= b.y - a.y <= 1
  }

  /** The eight offsets enumerate exactly the 8-neighbourhood of a tile. */
  lemma NeighbourIffAdjacent(a: Point, b: Point)
    ensures Adjacent(a, b) <==> exists k :: 0 <= k < 8 && b == Neighbour(a, k)
  {
    if Adjacent(a, b) {
      var dx, dy := b.x - a.x, b.y - a.y;
      var k := if dx == 0 && dy == -1 then 0
               else if dx == 1 && dy == -1 then 1
               else if dx == 1 && dy == 0 then 2
               else if dx == 1 && dy == 1 then 3
               else if dx == 0 && dy == 1 then 4
               else if dx == -1 && dy == 1 then 5
               else if dx == -1 && dy == 0 then 6
               else 7;
      assert b == Neighbour(a, k);
    }
  }

  /** Adjacency is symmetric. */
  lemma AdjacentSymmetric(a: Point, b: Point)
    ensures Adjacent(a, b) <==> Adjacent(b, a)
  {
  }

  /** Squared Euclidean distance. */
  function SqDist(a: Vector2, b: Vector2): real
  {
    (a.x - b.x) * (a.x - b.x) + (a.y - b.y) * (a.y - b.y)
  }

  /** `Vector2Distance(a, b) < r`, for a non-negative r, without a square root. */
  predicate CloserThan(a: Vector2, b: Vector2, r: real)
  {
    r > 0.0 && SqDist(a, b) < r * r
  }

  /** `Vector2Distance(a, b) <= r`, for a non-negative r, without a square root. */
  predicate WithinDistance(a: Vector2, b: Vector2, r: real)
  {
    r >= 0.0 && SqDist(a, b) <= r * r
  }

  /** A larger radius admits everything a smaller one does. */
  lemma WithinDistanceMonotone(a: Vector2, b: Vector2, r1: real, r2: real)
    requires 0.0 <= r1 <= r2
    ensures WithinDistance(a, b, r1) ==> WithinDistance(a, b, r2)
  {
    assert r1 * r1 <= r1 * r2 <= r2 * r2;
  }

  /** A float-to-int cast: truncation toward zero. */
  function TruncToInt(r: real): (n: int)
    ensures r >= 0.0 ==> n as real <= r < n as real + 1.0
    ensures r < 0.0 ==> n as real - 1.0 < r <= n as real
  {
    if r >= 0.0 then r.Floor else -((-r).Floor)
  }

  /** C++ integer division, which truncates toward zero (Dafny's `/` is Euclidean). */
  function CDiv(a: int, b: int): (q: int)
    requires b > 0
    ensures a >= 0 ==> q == a / b
    ensures a < 0 ==> q == -((-a) / b)
  {
    if a >= 0 then a / b else -((-a) / b)
  }

  /** raylib's Vector2Clamp: each component clamped into [lo, hi]. */
  function Vector2Clamp(v: Vector2, lo: Vector2, hi: Vector2): (r: Vector2)
    ensures lo.x <= hi.x ==> lo.x <= r.x <= hi.x
    ensures lo.y <= hi.y ==> lo.y <= r.y <= hi.y
    ensures lo.x <= v.x <= hi.x ==> r.x == v.x
    ensures lo.y <= v.y <= hi.y ==> r.y == v.y
  {
    Vector2(Min(hi.x, Max(lo.x, v.x)), Min(hi.y, Max(lo.y, v.y)))
  }

  function Min(a: real, b: real): real { if a <= b then a else b }
  function Max(a: real, b: real): real { if a >= b then a else b }
}
