/** The tile grid's geometry: its size in tiles, its pixel offset inside the window,
    the flat index `y * width + x` shared by the ground, grass and manure arrays,
    and the conversions between tile coordinates and pixel positions. */
module TileGrid {
  import opened Geometry

  const TILE_SIZE: int := 32
  const TILE_PADDING_X: int := 3
  const TILE_PADDING_Y: int := 2

  /** `m_world_size` (columns, rows) and `m_world_offset` (start_x, start_y). */
  datatype Grid = Grid(size: Point, offset: Point) {

    function Width(): int { size.x }
    function Height(): int { size.y }

    /** Number of cells of each per-tile array. */
    function Count(): int { size.x * size.y }

    predicate WellFormed() { size.x >= 0 && size.y >= 0 }

    /** `World::is_valid_coord`. */
    predicate IsValidCoord(c: Point)
    {
      0 <= c.x < size.x && 0 <= c.y < size.y
    }

    /** `World::GetIndex`, and the index every per-tile lookup computes inline. */
    function Index(c: Point): int
    {
      c.y * size.x + c.x
    }

    /** The coordinate that the initialisation loops give array entry `i`. */
    function CoordOf(i: int): Point
      requires size.x > 0
    {
      Point(i % size.x, i / size.x)
    }

    /** `World::tile_coord_to_position`: the tile's top-left pixel. */
    function TileToPosition(c: Point): Vector2
    {
      Vector2((c.x * TILE_SIZE + offset.x) as real, (c.y * TILE_SIZE + offset.y) as real)
    }

    /** `World::position_to_tile_coord`: cast to whole pixels, remove the offset,
        divide by the tile size; the casts and the division truncate toward zero. */
    function PositionToTile(p: Vector2): Point
    {
      Point(CDiv(TruncToInt(p.x) - offset.x, TILE_SIZE),
            CDiv(TruncToInt(p.y) - offset.y, TILE_SIZE))
    }

    /** `World::CalculateNeighbouringTiles`: the eight tiles around the tile that
        holds `position`. */
    function CalculateNeighbouringTiles(position: Vector2): seq<Point>
    {
      Neighbours(PositionToTile(position))
    }

    /** `m_world_bounds`: the grid's rectangle in pixels. */
    function Bounds(): Rectangle
    {
      Rectangle(offset.x as real, offset.y as real,
                (size.x * TILE_SIZE) as real, (size.y * TILE_SIZE) as real)
    }
  }

  /** The grid that `World::init` derives from the window size. */
  function GridForWindow(width: int, height: int): (g: Grid)
    requires width >= 0 && height >= 0
    ensures g.size.x == width / TILE_SIZE - TILE_PADDING_X
    ensures g.size.y == height / TILE_SIZE - TILE_PADDING_Y
    ensures g.offset.x == CDiv(width - g.size.x * TILE_SIZE, 2)
    ensures g.offset.y == CDiv(height - g.size.y * TILE_SIZE, 2)
  {
    var columns := CDiv(width, TILE_SIZE) - TILE_PADDING_X;
    var rows := CDiv(height, TILE_SIZE) - TILE_PADDING_Y;
    Grid(Point(columns, rows),
         Point(CDiv(width - columns * TILE_SIZE, 2), CDiv(height - rows * TILE_SIZE, 2)))
  }

  /** The grid is centred in the window: the margins left and right differ by at most
      one pixel, and likewise top and bottom; the padding keeps them non-negative.
      The grid has columns exactly when the window is at least 4 tiles wide, and rows
      exactly when it is at least 3 tiles high, so a 3 x 2 window gives an empty grid. */
  lemma GridIsCentred(width: int, height: int)
    requires width >= 3 * TILE_SIZE && height >= 2 * TILE_SIZE
    ensures var g := GridForWindow(width, height);
      && g.WellFormed()
      && (g.size.x > 0 <==> width >= 4 * TILE_SIZE)
      && (g.size.y > 0 <==> height >= 3 * TILE_SIZE)
      && 0 <= g.offset.x && 0 <= g.offset.y
      && 0 <= (width - g.offset.x - g.size.x * TILE_SIZE) - g.offset.x <= 1
      && 0 <= (height - g.offset.y - g.size.y * TILE_SIZE) - g.offset.y <= 1
  {
  }

  /** Every valid coordinate has an index inside the arrays. */
  lemma IndexInRange(g: Grid, c: Point)
    requires g.IsValidCoord(c)
    ensures 0 <= g.Index(c) < g.Count()
  {
    assert c.y * g.size.x <= (g.size.y - 1) * g.size.x by {
      MulMonotone(c.y, g.size.y - 1, g.size.x);
    }
  }

  lemma MulMonotone(a: int, b: int, k: int)
    requires a <= b && k >= 0
    ensures a * k <= b * k
  {
  }

  /** The index-to-coordinate mapping of the initialisation loops inverts Index:
      entry i describes tile (i mod columns, i div columns). */
  lemma CoordOfIndex(g: Grid, i: int)
    requires g.size.x > 0 && 0 <= i < g.Count()
    ensures g.IsValidCoord(g.CoordOf(i))
    ensures g.Index(g.CoordOf(i)) == i
  {
    var c := g.CoordOf(i);
    assert c.y < g.size.y by {
      if c.y >= g.size.y {
        MulMonotone(g.size.y, c.y, g.size.x);
        assert false;
      }
    }
  }

  /** ... and Index is one-to-one on valid coordinates. */
  lemma IndexOfCoord(g: Grid, c: Point)
    requires g.IsValidCoord(c)
    ensures g.CoordOf(g.Index(c)) == c
  {
    var i := g.Index(c);
    assert i / g.size.x == c.y && i % g.size.x == c.x by {
      DivModUnique(i, g.size.x, c.y, c.x);
    }
  }

  lemma DivModUnique(n: int, d: int, q: int, r: int)
    requires d > 0 && 0 <= r < d && n == q * d + r
    ensures n / d == q && n % d == r
  {
    var q', r' := n / d, n % d;
    assert (q - q') * d == r' - r;
    if q > q' {
      MulMonotone(1, q - q', d);
    } else if q < q' {
      MulMonotone(1, q' - q, d);
    }
  }

  lemma IndexInjective(g: Grid, a: Point, b: Point)
    requires g.IsValidCoord(a) && g.IsValidCoord(b)
    ensures g.Index(a) == g.Index(b) <==> a == b
  {
    if g.Index(a) == g.Index(b) {
      IndexOfCoord(g, a);
      IndexOfCoord(g, b);
    }
  }

  /** Converting a tile to its pixel position and back gives the tile again, for
      every tile coordinate, in the grid or not. */
  lemma {:induction false} TileRoundTrip(g: Grid, c: Point)
    ensures g.PositionToTile(g.TileToPosition(c)) == c
  {
    var p := g.TileToPosition(c);
    assert TruncToInt(p.x) == c.x * TILE_SIZE + g.offset.x;
    assert TruncToInt(p.y) == c.y * TILE_SIZE + g.offset.y;
    CDivExact(c.x, TILE_SIZE);
    CDivExact(c.y, TILE_SIZE);
  }

  lemma CDivExact(q: int, d: int)
    requires d > 0
    ensures CDiv(q * d, d) == q
  {
    if q >= 0 {
      DivModUnique(q * d, d, q, 0);
    } else {
      assert -(q * d) == (-q) * d;
      DivModUnique((-q) * d, d, -q, 0);
    }
  }

  /** Neighbours computed through a tile's pixel position are that tile's own
      neighbours. */
  lemma NeighboursOfTilePosition(g: Grid, c: Point)
    ensures g.CalculateNeighbouringTiles(g.TileToPosition(c)) == Neighbours(c)
  {
    TileRoundTrip(g, c);
  }
}
