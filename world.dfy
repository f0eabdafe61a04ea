/** `sim::World`: the grid's per-tile arrays (ground, grass, manure), the growing
    vector of sheep, the wolf and the herder, with the queries and mutators the
    agents call through their `world` back-pointer. The arrays never change size
    after `init`, so they are `const` arrays written in place; the sheep vector only
    grows, so it is a sequence the methods reassign. */
module WorldModel {
  import opened Geometry
  import opened TileGrid
  import opened Random
  import opened GroundLayer
  import G = GrassLayer
  import M = ManureLayer
  import S = SheepAgent
  import W = WolfAgent
  import H = HerderAgent

  const START_AMOUNT_SHEEP: nat := 5
  /** The largest `size_t` of a 64-bit build. */
  const SIZE_MAX: int := 0xFFFF_FFFF_FFFF_FFFF

  /** A sheep the mate lookup may pick: alive, Reproducing and without a mate. */
  predicate IsMateCandidate(s: S.Sheep)
  {
    s.state == S.Reproducing && s.isAlive && !s.isMatedWith && s.sheepToMate == -1
  }

  /** A sheep the prey lookup may pick: alive and within hunting distance. */
  predicate IsPrey(w: W.Wolf, s: S.Sheep)
  {
    WithinDistance(w.position, s.position, W.MAX_HUNTING_DISTANCE) && s.isAlive
  }

  /** A position on the world's rectangle, edges included. */
  predicate InsideBounds(b: Rectangle, p: Vector2)
  {
    b.x <= p.x <= b.x + b.width && b.y <= p.y <= b.y + b.height
  }

  /** The ground layer `World::init` builds: entry i lies on tile
      (i mod columns, i div columns), is walkable and unfertilised. */
  function InitialGround(g: Grid): (r: seq<Ground>)
    requires g.size.x > 0 && g.size.y >= 0
    ensures |r| == g.Count()
  {
    seq(g.Count(), k => Ground(g.CoordOf(k), true, false, UnfertilisedSource))
  }

  /** The manure layer `World::init` builds: the counter is incremented before the
      coordinate is computed, so entry i is initiated on the tile of index i + 1. */
  function InitialManure(g: Grid): (r: seq<M.Manure>)
    requires g.size.x > 0 && g.size.y >= 0
    ensures |r| == g.Count()
  {
    seq(g.Count(), k => M.Initiate(g, g.CoordOf(k + 1)))
  }

  /** Grass entry k after `World::init`: a default cell on tile k, left dead or given
      an age of a whole number of hundredths between 0.01 and 1. */
  predicate InitialGrassCell(g: Grid, k: int, c: G.Grass)
    requires g.size.x > 0
  {
    && c == G.DefaultGrass.(tileCoord := g.CoordOf(k), age := c.age)
    && (c.age == 0.0 || 0.01 <= c.age <= 1.0)
  }

  /** Every ground cell of a fresh world is walkable and sits on the tile its index
      names, so every tile of the grid is walkable. */
  lemma InitialGroundIsWalkable(g: Grid)
    requires g.size.x > 0 && g.size.y >= 0
    ensures forall k :: 0 <= k < g.Count() ==>
      InitialGround(g)[k].walkable && g.Index(InitialGround(g)[k].tileCoord) == k
    ensures forall c :: g.IsValidCoord(c) ==> IsWalkableAt(g, InitialGround(g), c)
  {
    forall k | 0 <= k < g.Count()
      ensures g.Index(InitialGround(g)[k].tileCoord) == k
    {
      CoordOfIndex(g, k);
    }
    forall c | g.IsValidCoord(c)
      ensures IsWalkableAt(g, InitialGround(g), c)
    {
      IndexInRange(g, c);
    }
  }

  /** Manure entry k lies on the tile of index k + 1: one tile further than its own
      index for every entry but the last, whose tile (0, rows) is off the grid. */
  lemma ManureOffByOne(g: Grid, k: int)
    requires g.size.x > 0 && g.size.y >= 0 && 0 <= k < g.Count()
    ensures g.Index(InitialManure(g)[k].tileCoord) == k + 1
    ensures k < g.Count() - 1 ==> g.IsValidCoord(InitialManure(g)[k].tileCoord)
    ensures k == g.Count() - 1 ==>
      InitialManure(g)[k].tileCoord == Point(0, g.size.y) && !g.IsValidCoord(InitialManure(g)[k].tileCoord)
  {
    if k < g.Count() - 1 {
      CoordOfIndex(g, k + 1);
    } else {
      DivModUnique(k + 1, g.size.x, g.size.y, 0);
    }
    assert g.CoordOf(k + 1) == Point((k + 1) % g.size.x, (k + 1) / g.size.x);
    DivModUnique(k + 1, g.size.x, (k + 1) / g.size.x, (k + 1) % g.size.x);
  }

  /** Converting a clamped pixel position to a tile: the clamp keeps the pixel in
      [0, size * 32 + offset], so the tile lies between -(offset / 32) and size. */
  lemma ClampedTileBounds(n: int, offset: int, size: int)
    requires 0 <= offset && 0 <= size && 0 <= n <= size * TILE_SIZE + offset
    ensures -(offset / TILE_SIZE) <= CDiv(n - offset, TILE_SIZE) <= size
  {
    if n - offset < 0 {
      assert -(n - offset) <= offset;
    }
  }

  /** The tile of the whole-pixel point (x, y) once clamped to the rectangle from
      (0, 0) to the corner of tile `m_world_size`, as `getRandomTile` and the flee
      targets compute it. It may lie one tile past the right or bottom edge, or left
      of or above the grid by the offset's whole tiles; callers check validity. */
  function ClampedTile(g: Grid, x: int, y: int): (t: Point)
    requires g.WellFormed() && 0 <= g.offset.x && 0 <= g.offset.y
    ensures -(g.offset.x / TILE_SIZE) <= t.x <= g.size.x
    ensures -(g.offset.y / TILE_SIZE) <= t.y <= g.size.y
  {
    var p := Vector2Clamp(Vector2(x as real, y as real), Zero, g.TileToPosition(g.size));
    ClampedTileBounds(TruncToInt(p.x), g.offset.x, g.size.x);
    ClampedTileBounds(TruncToInt(p.y), g.offset.y, g.size.y);
    g.PositionToTile(p)
  }

  /** `canSheepCurrentlyMate` on a vector of sheep: a valid index of a live,
      Reproducing sheep. */
  function CanSheepMate(sheep: seq<S.Sheep>, i: int): (b: bool)
    ensures b ==> 0 <= i < |sheep| && sheep[i].isAlive && sheep[i].state == S.Reproducing
    ensures 0 <= i < |sheep| <= SIZE_MAX ==> (b <==> sheep[i].isAlive && sheep[i].state == S.Reproducing)
  {
    IsSheepIndexValid(|sheep|, i) && i < |sheep| && sheep[i].isAlive && sheep[i].state == S.Reproducing
  }

  /** `isInRangeOfMating` for the mate `mate`: the squared distance is at most
      (2r)^2 + 10, so a sheep within two radii is in range and one in range is
      within two radii plus four pixels. */
  function InMatingRange(mate: S.Sheep, position: Vector2): (b: bool)
    ensures WithinDistance(mate.position, position, 2.0 * mate.radius) ==> b
    ensures b && mate.radius >= 0.0 ==> WithinDistance(mate.position, position, 2.0 * mate.radius + 4.0)
  {
    var r := 2.0 * mate.radius;
    assert r * r + 10.0 <= (r + 4.0) * (r + 4.0) || r < 0.0;
    SqDist(mate.position, position) <= r * r + 10.0
  }

  /** `getRandomTile(start, range)` on the raw draws `source(first)` and
      `source(first + 1)`. */
  function RandomTileNear(g: Grid, start: Vector2, range: real, source: nat -> nat, first: nat): Point
    requires g.WellFormed() && 0 <= g.offset.x && 0 <= g.offset.y
  {
    ClampedTile(g, RandomValue(source(first), TruncToInt(start.x - range), TruncToInt(start.x + range)),
                   RandomValue(source(first + 1), TruncToInt(start.y - range), TruncToInt(start.y + range)))
  }

  /** The tile that two draws `x` and `y` made for RandomTileNear clamp to. */
  lemma TileOfDraws(g: Grid, start: Vector2, range: real, source: nat -> nat, first: nat, x: int, y: int)
    requires g.WellFormed() && 0 <= g.offset.x && 0 <= g.offset.y
    requires x == RandomValue(source(first), TruncToInt(start.x - range), TruncToInt(start.x + range))
    requires y == RandomValue(source(first + 1), TruncToInt(start.y - range), TruncToInt(start.y + range))
    ensures ClampedTile(g, x, y) == RandomTileNear(g, start, range, source, first)
  {
    assert RandomTileNear(g, start, range, source, first) == ClampedTile(g, x, y);
  }

  /** Whether the cell under `position` holds live, edible grass and no manure;
      off the grid it does not. */
  predicate GrassEdibleAt(g: Grid, grass: seq<G.Grass>, manure: seq<M.Manure>, position: Vector2)
    requires |grass| == g.Count() && |manure| == g.Count()
  {
    var c := g.PositionToTile(position);
    if g.IsValidCoord(c) then
      IndexInRange(g, c);
      var idx := g.Index(c);
      G.IsAlive(grass[idx]) && grass[idx].isEdible && !manure[idx].manureExists
    else false
  }

  /** The grass layer after `World::EatGrass(position)`: the cell under `position`
      is despawned and can no longer be eaten; every other cell is unchanged. */
  function GrassEatenAt(g: Grid, grass: seq<G.Grass>, position: Vector2): (r: seq<G.Grass>)
    ensures |r| == |grass|
    ensures forall k :: 0 <= k < |grass| && k != g.Index(g.PositionToTile(position)) ==> r[k] == grass[k]
    ensures var idx := g.Index(g.PositionToTile(position));
      0 <= idx < |grass| ==> r[idx] == G.Despawn(grass[idx]) && !G.IsAlive(r[idx]) && !r[idx].isEdible
  {
    var idx := g.Index(g.PositionToTile(position));
    if 0 <= idx < |grass| then grass[idx := G.Despawn(grass[idx])] else grass
  }

  /** The manure layer after `World::Defecate(position)`: a dropping is spawned on
      the entry of the cell under `position`; every other entry is unchanged. */
  function ManureDroppedAt(g: Grid, manure: seq<M.Manure>, position: Vector2): (r: seq<M.Manure>)
    ensures |r| == |manure|
    ensures forall k :: 0 <= k < |manure| && k != g.Index(g.PositionToTile(position)) ==> r[k] == manure[k]
    ensures var idx := g.Index(g.PositionToTile(position));
      0 <= idx < |manure| ==> r[idx] == M.Spawn(manure[idx]) && r[idx].manureExists && !r[idx].hasFertilised
  {
    var idx := g.Index(g.PositionToTile(position));
    if 0 <= idx < |manure| then manure[idx := M.Spawn(manure[idx])] else manure
  }

  /** `isSheepValid` for a vector of `count` sheep: the index is compared with
      `size() - 1` in unsigned arithmetic, which wraps to SIZE_MAX when there are
      no sheep. */
  function IsSheepIndexValid(count: nat, i: int): (b: bool)
    ensures 0 < count <= SIZE_MAX ==> (b <==> 0 <= i < count)
    ensures count == 0 ==> (b <==> 0 <= i <= SIZE_MAX)
  {
    0 <= i && i <= (count - 1) % (SIZE_MAX + 1)
  }

  /** The ground loop of `World::init`: cell i gets the unfertilised sprite, the
      coordinate (i mod columns, i div columns) and walkability. */
  method InitGroundLayer(g: Grid) returns (a: array<Ground>)
    requires g.WellFormed()
    ensures fresh(a) && a.Length == g.Count()
    ensures g.size.x > 0 ==> a[..] == InitialGround(g)
  {
    var n, columns := g.Count(), g.size.x;
    a := new Ground[n](_ => DefaultGround);
    var i := 0;
    while i < n
      invariant 0 <= i <= n
      invariant forall k :: 0 <= k < i ==> a[k] == Ground(Point(k % columns, k / columns), true, false, UnfertilisedSource)
      invariant forall k :: i <= k < n ==> a[k] == DefaultGround
    {
      var cell := a[i].(source := UnfertilisedSource);
      cell := SetTileCoord(cell, Point(i % columns, i / columns));
      cell := SetWalkable(cell, true);
      a[i] := cell;
      i := i + 1;
    }
    if columns > 0 {
      assert a[..] == InitialGround(g);
    }
  }

  /** The grass loop of `World::init`: cell i gets its coordinate; a first draw above
      50 brings it to life with a second draw's worth of hundredths as its age. */
  method InitGrassLayer(g: Grid, rng: Rng) returns (a: array<G.Grass>)
    requires g.WellFormed()
    modifies rng
    ensures fresh(a) && a.Length == g.Count()
    ensures g.size.x > 0 ==> forall k :: 0 <= k < a.Length ==> InitialGrassCell(g, k, a[k])
  {
    var n, columns := g.Count(), g.size.x;
    a := new G.Grass[n](_ => G.DefaultGrass);
    var i := 0;
    while i < n
      invariant 0 <= i <= n
      invariant forall k :: 0 <= k < i ==>
        a[k] == G.DefaultGrass.(tileCoord := Point(k % columns, k / columns), age := a[k].age)
        && (a[k].age == 0.0 || 0.01 <= a[k].age <= 1.0)
      invariant forall k :: i <= k < n ==> a[k] == G.DefaultGrass
    {
      var cell := a[i].(tileCoord := Point(i % columns, i / columns));
      var d := rng.GetRandomValue(0, 100);
      if d > 50 {
        var age := rng.GetRandomValue(1, 100);
        cell := cell.(age := age as real / 100.0);
      }
      a[i] := cell;
      i := i + 1;
    }
  }

  /** The manure loop of `World::init`: the running index is incremented before the
      coordinate is computed from it, so cell i is initiated on the tile of index
      i + 1. */
  method InitManureLayer(g: Grid) returns (a: array<M.Manure>)
    requires g.WellFormed()
    ensures fresh(a) && a.Length == g.Count()
    ensures g.size.x > 0 ==> a[..] == InitialManure(g)
  {
    var n, columns := g.Count(), g.size.x;
    a := new M.Manure[n](_ => M.DefaultManure);
    var manureTileIndex := 0;
    var i := 0;
    while i < n
      invariant 0 <= i <= n && manureTileIndex == i
      invariant forall k :: 0 <= k < i ==> a[k] == M.Initiate(g, Point((k + 1) % columns, (k + 1) / columns))
    {
      manureTileIndex := manureTileIndex + 1;
      var coord := Point(manureTileIndex % columns, manureTileIndex / columns);
      a[i] := M.Initiate(g, coord);
      i := i + 1;
    }
    if columns > 0 {
      assert a[..] == InitialManure(g);
    }
  }

  /** The writes of `World::Fertilise(coord, nearby)`: the grass on `nearby` is
      fertilised, the grass on `coord` made inedible (when `coord` indexes the array)
      and the ground on `nearby` fertilised. */
  function FertiliseLayers(g: Grid, ground: seq<Ground>, grass: seq<G.Grass>, coord: Point, nearby: Point)
    : (r: (seq<Ground>, seq<G.Grass>))
    requires |ground| == g.Count() && |grass| == g.Count() && g.IsValidCoord(nearby)
    ensures |r.0| == g.Count() && |r.1| == g.Count()
  {
    IndexInRange(g, nearby);
    var n, c := g.Index(nearby), g.Index(coord);
    var grass1 := grass[n := grass[n].(isFertilised := true)];
    var grass2 := if 0 <= c < |grass| then grass1[c := grass1[c].(isEdible := false)] else grass1;
    (ground[n := FertiliseGround(ground[n])], grass2)
  }

  /** The writes of `World::Defertilise(coord, nearby)`: the same three fields as
      FertiliseLayers, set to the opposite values. */
  function DefertiliseLayers(g: Grid, ground: seq<Ground>, grass: seq<G.Grass>, coord: Point, nearby: Point)
    : (r: (seq<Ground>, seq<G.Grass>))
    requires |ground| == g.Count() && |grass| == g.Count() && g.IsValidCoord(nearby)
    ensures |r.0| == g.Count() && |r.1| == g.Count()
  {
    IndexInRange(g, nearby);
    var n, c := g.Index(nearby), g.Index(coord);
    var grass1 := grass[n := grass[n].(isFertilised := false)];
    var grass2 := if 0 <= c < |grass| then grass1[c := grass1[c].(isEdible := true)] else grass1;
    (ground[n := UnfertiliseGround(ground[n])], grass2)
  }

  /** Fertilise changes exactly three fields of at most three cells, and Defertilise
      writes the opposite values into the same fields; no other cell changes. */
  lemma FertiliseWritesExactly(g: Grid, ground: seq<Ground>, grass: seq<G.Grass>, coord: Point, nearby: Point)
    requires |ground| == g.Count() && |grass| == g.Count() && g.IsValidCoord(nearby)
    ensures var (gr, gs) := FertiliseLayers(g, ground, grass, coord, nearby);
      var n, c := g.Index(nearby), g.Index(coord);
      && 0 <= n < |grass| && |gr| == |ground| && |gs| == |grass|
      && gr == ground[n := FertiliseGround(ground[n])]
      && (c != n ==> gs[n] == grass[n].(isFertilised := true))
      && (c != n && 0 <= c < |grass| ==> gs[c] == grass[c].(isEdible := false))
      && (c == n ==> gs[n] == grass[n].(isFertilised := true, isEdible := false))
      && (forall k :: 0 <= k < |grass| && k != n && k != c ==> gs[k] == grass[k])
    ensures var (gr, gs) := DefertiliseLayers(g, ground, grass, coord, nearby);
      var n, c := g.Index(nearby), g.Index(coord);
      && 0 <= n < |grass| && |gr| == |ground| && |gs| == |grass|
      && gr == ground[n := UnfertiliseGround(ground[n])]
      && (c != n ==> gs[n] == grass[n].(isFertilised := false))
      && (c != n && 0 <= c < |grass| ==> gs[c] == grass[c].(isEdible := true))
      && (c == n ==> gs[n] == grass[n].(isFertilised := false, isEdible := true))
      && (forall k :: 0 <= k < |grass| && k != n && k != c ==> gs[k] == grass[k])
  {
    IndexInRange(g, nearby);
  }

  /** Defertilise undoes Fertilise on cells that were in the defertilised state: the
      ground on `nearby` unfertilised, its grass not fertilised and the grass on a
      different in-grid `coord` edible. */
  lemma DefertiliseUndoesFertilise(g: Grid, ground: seq<Ground>, grass: seq<G.Grass>, coord: Point, nearby: Point)
    requires |ground| == g.Count() && |grass| == g.Count() && g.IsValidCoord(nearby) && g.IsValidCoord(coord)
    requires coord != nearby
    requires 0 <= g.Index(nearby) < g.Count() && 0 <= g.Index(coord) < g.Count()
    requires && !ground[g.Index(nearby)].fertilised && ground[g.Index(nearby)].source == UnfertilisedSource
      && !grass[g.Index(nearby)].isFertilised && grass[g.Index(coord)].isEdible
    ensures var (gr, gs) := FertiliseLayers(g, ground, grass, coord, nearby);
      DefertiliseLayers(g, gr, gs, coord, nearby) == (ground, grass)
  {
    IndexInRange(g, nearby);
    IndexInRange(g, coord);
    IndexInjective(g, coord, nearby);
    var (gr, gs) := FertiliseLayers(g, ground, grass, coord, nearby);
    var (gr2, gs2) := DefertiliseLayers(g, gr, gs, coord, nearby);
    assert gr2 == ground;
    assert gs2 == grass;
  }

  class World {
    const grid: Grid
    const ground: array<Ground>
    const grass: array<G.Grass>
    const manure: array<M.Manure>
    var sheep: seq<S.Sheep>
    var wolf: W.Wolf
    var herder: H.Herder
    var running: bool
    /** The C library generator behind GetRandomValue. */
    const rng: Rng
    /** raylib's Vector2Normalize. */
    const normalize: Vector2 -> Vector2
    /** `World::CalculateHeuristicValue`: a Euclidean distance in tiles, computed
        in floating point. */
    const heuristic: (Point, Point) -> real

    /** The grid and the three per-tile arrays agree in size. */
    predicate Valid()
    {
      && grid.WellFormed() && 0 <= grid.offset.x && 0 <= grid.offset.y
      && ground.Length == grid.Count() && grass.Length == grid.Count() && manure.Length == grid.Count()
    }

    /** `World::init`: the grid fitted to the window, the three layers filled cell by
        cell in index order, five sheep at random positions, the wolf at its den and
        the herder on tile (21, 21). */
    constructor Init(width: int, height: int, rng: Rng, normalize: Vector2 -> Vector2,
                     heuristic: (Point, Point) -> real)
      requires width >= 3 * TILE_SIZE && height >= 2 * TILE_SIZE
      modifies rng
      ensures Valid() && grid == GridForWindow(width, height) && running
      ensures this.rng == rng && this.normalize == normalize && this.heuristic == heuristic
      ensures fresh(ground) && fresh(grass) && fresh(manure)
      ensures grid.size.x > 0 ==> ground[..] == InitialGround(grid) && manure[..] == InitialManure(grid)
      ensures grid.size.x > 0 ==> forall k :: 0 <= k < grass.Length ==> InitialGrassCell(grid, k, grass[k])
      ensures |sheep| == START_AMOUNT_SHEEP
      ensures forall k :: 0 <= k < |sheep| ==>
        sheep[k] == S.NewSheep(sheep[k].position) && InsideBounds(grid.Bounds(), sheep[k].position)
      ensures wolf == W.Spawn() && herder == H.Init(grid)
    {
      var g := GridForWindow(width, height);
      GridIsCentred(width, height);
      var groundCells := InitGroundLayer(g);
      var grassCells := InitGrassLayer(g, rng);
      var manureCells := InitManureLayer(g);
      ghost var groundInit, grassInit, manureInit := groundCells[..], grassCells[..], manureCells[..];

      grid := g;
      ground := groundCells;
      grass := grassCells;
      manure := manureCells;
      sheep := [];
      wolf := W.DefaultWolf;
      herder := H.DefaultHerder;
      running := true;
      this.rng := rng;
      this.normalize := normalize;
      this.heuristic := heuristic;
      new;

      var i := 0;
      while i < START_AMOUNT_SHEEP
        invariant 0 <= i <= START_AMOUNT_SHEEP && |sheep| == i
        invariant forall k :: 0 <= k < |sheep| ==>
          sheep[k] == S.NewSheep(sheep[k].position) && InsideBounds(grid.Bounds(), sheep[k].position)
        invariant wolf == W.DefaultWolf && herder == H.DefaultHerder && running
        invariant ground[..] == groundInit && grass[..] == grassInit && manure[..] == manureInit
      {
        SpawnSheep(Zero, true);
        i := i + 1;
      }
      wolf := W.Spawn();
      herder := H.Init(grid);
    }

    /** `World::isSheepValid`. */
    predicate IsSheepValid(i: int)
      reads this
    {
      IsSheepIndexValid(|sheep|, i)
    }

    /** `World::canSheepCurrentlyMate`. */
    predicate CanSheepCurrentlyMate(i: int)
      reads this
    {
      CanSheepMate(sheep, i)
    }

    /** `World::isInRangeOfMating`. */
    predicate IsInRangeOfMating(i: int, position: Vector2)
      reads this
      requires 0 <= i < |sheep|
    {
      InMatingRange(sheep[i], position)
    }

    /** `World::CanGrassBeEaten`: the cell under `position` holds live, edible grass
        and no manure. Off the grid the answer is false. */
    function CanGrassBeEaten(position: Vector2): (b: bool)
      reads grass, manure
      requires Valid()
      ensures var c := grid.PositionToTile(position);
        b <==> G.HasGrassAt(grid, grass[..], c) && 0 <= grid.Index(c) < grid.Count()
               && grass[grid.Index(c)].isEdible && !manure[grid.Index(c)].manureExists
    {
      var c := grid.PositionToTile(position);
      if grid.IsValidCoord(c) then
        IndexInRange(grid, c);
        assert grass[..][grid.Index(c)] == grass[grid.Index(c)];
        GrassEdibleAt(grid, grass[..], manure[..], position)
      else GrassEdibleAt(grid, grass[..], manure[..], position)
    }

    /** `World::IsHerderNearby`: off the grid, or within five herder radii of the
        herder's sprite centre. */
    predicate IsHerderNearby(c: Point)
      reads `herder
    {
      !grid.IsValidCoord(c)
      || WithinDistance(grid.TileToPosition(c), herder.position.Add(herder.origin), 5.0 * herder.radius)
    }

    /** `World::IsHerderTooClose`: off the grid, or within three herder radii. */
    predicate IsHerderTooClose(c: Point)
      reads `herder
    {
      !grid.IsValidCoord(c)
      || WithinDistance(grid.TileToPosition(c), herder.position.Add(herder.origin), 3.0 * herder.radius)
    }

    /** Both proximity tests hold off the grid, and "too close" implies "nearby". */
    lemma TooCloseImpliesNearby(c: Point)
      ensures !grid.IsValidCoord(c) ==> IsHerderNearby(c) && IsHerderTooClose(c)
      ensures IsHerderTooClose(c) ==> IsHerderNearby(c)
    {
      if herder.radius >= 0.0 {
        WithinDistanceMonotone(grid.TileToPosition(c), herder.position.Add(herder.origin),
                               3.0 * herder.radius, 5.0 * herder.radius);
      }
    }

    /** `World::ReturnMatingSheep`: the first mate candidate other than the asking
        sheep `self`, or -1. The address comparison of `IsAnotherSheep` is a
        comparison of indices. */
    method ReturnMatingSheep(self: int) returns (r: int)
      ensures r == -1 || (0 <= r < |sheep| && r != self && IsMateCandidate(sheep[r]))
      ensures forall k :: 0 <= k < |sheep| && k != self && (r == -1 || k < r) ==> !IsMateCandidate(sheep[k])
    {
      r := -1;
      var i := 0;
      while i < |sheep|
        invariant 0 <= i <= |sheep|
        invariant forall k :: 0 <= k < i && k != self ==> !IsMateCandidate(sheep[k])
      {
        var s := sheep[i];
        var hasAMate := s.isMatedWith || s.sheepToMate != -1;
        var isCurrentlyReproducing := s.state == S.Reproducing && hasAMate;
        var isAbleToReproduce := s.state == S.Reproducing && s.isAlive;
        if isCurrentlyReproducing || !isAbleToReproduce || i == self {
          i := i + 1;
          continue;
        }
        return i;
      }
    }

    /** `World::ReturnSheepToEat`: the first prey, or -1; every sheep scanned before
        it stops being hunted, and the sheep from the prey on are left alone. */
    method ReturnSheepToEat() returns (r: int)
      modifies this
      ensures wolf == old(wolf) && herder == old(herder) && running == old(running)
      ensures |sheep| == |old(sheep)|
      ensures r == -1 || (0 <= r < |sheep| && IsPrey(wolf, old(sheep)[r]))
      ensures forall k :: 0 <= k < |sheep| && (r == -1 || k < r) ==>
        !IsPrey(wolf, old(sheep)[k]) && sheep[k] == old(sheep)[k].(isBeingHunted := false)
      ensures forall k :: r != -1 && r <= k < |sheep| ==> sheep[k] == old(sheep)[k]
    {
      r := -1;
      var i := 0;
      while i < |sheep|
        invariant 0 <= i <= |sheep| == |old(sheep)|
        invariant wolf == old(wolf) && herder == old(herder) && running == old(running)
        invariant forall k :: 0 <= k < i ==>
          !IsPrey(wolf, old(sheep)[k]) && sheep[k] == old(sheep)[k].(isBeingHunted := false)
        invariant forall k :: i <= k < |sheep| ==> sheep[k] == old(sheep)[k]
      {
        var isSheepNearby := WithinDistance(wolf.position, sheep[i].position, W.MAX_HUNTING_DISTANCE);
        if isSheepNearby && sheep[i].isAlive {
          r := i;
          return;
        }
        sheep := sheep[i := sheep[i].(isBeingHunted := false)];
        i := i + 1;
      }
    }

    /** `World::CanSheepBeEaten`: a valid index marks the sheep as hunted and tells
        whether it touches the wolf; an invalid index changes nothing. */
    method CanSheepBeEaten(i: int) returns (b: bool)
      modifies this
      ensures wolf == old(wolf) && herder == old(herder) && running == old(running)
      ensures !(old(IsSheepValid(i)) && i < |old(sheep)|) ==> !b && sheep == old(sheep)
      ensures old(IsSheepValid(i)) && i < |old(sheep)| ==>
        && sheep == old(sheep)[i := old(sheep)[i].(isBeingHunted := true)]
        && (b <==> WithinDistance(wolf.position, sheep[i].position, wolf.radius + sheep[i].radius))
    {
      if !IsSheepValid(i) || i >= |sheep| {
        return false;
      }
      sheep := sheep[i := sheep[i].(isBeingHunted := true)];
      b := WithinDistance(wolf.position, sheep[i].position, wolf.radius + sheep[i].radius);
    }

    /** `World::EatSheep`: the prey takes a bite of MAX_HEALTH, which leaves it with no
        health, and is no longer hunted. */
    method EatSheep(i: int)
      requires 0 <= i < |sheep|
      modifies this
      ensures sheep == old(sheep)[i := S.TakeDamage(old(sheep)[i], 10.0).(isBeingHunted := false)]
      ensures old(sheep)[i].health <= S.MAX_HEALTH ==> sheep[i].health == 0.0
      ensures wolf == old(wolf) && herder == old(herder) && running == old(running)
    {
      sheep := sheep[i := S.TakeDamage(sheep[i], 10.0).(isBeingHunted := false)];
    }

    /** `World::AttackHerder`: the herder is stunned. */
    method AttackHerder()
      modifies this
      ensures herder == old(herder).(isAttacked := true)
      ensures sheep == old(sheep) && wolf == old(wolf) && running == old(running)
    {
      herder := herder.(isAttacked := true);
    }

    /** `World::getRandomTile`: two draws within `range` of `start` on each axis,
        clamped to the world and converted to a tile. */
    method GetRandomTile(start: Vector2, range: real) returns (t: Point)
      requires grid.WellFormed() && 0 <= grid.offset.x && 0 <= grid.offset.y
      modifies rng
      ensures rng.next == old(rng.next) + 2
      ensures t == RandomTileNear(grid, start, range, rng.source, old(rng.next))
    {
      var loX, hiX := TruncToInt(start.x - range), TruncToInt(start.x + range);
      var loY, hiY := TruncToInt(start.y - range), TruncToInt(start.y + range);
      ghost var first := rng.next;
      var x := rng.GetRandomValue(loX, hiX);
      assert x == RandomValue(rng.source(first), loX, hiX);
      var y := rng.GetRandomValue(loY, hiY);
      assert y == RandomValue(rng.source(first + 1), loY, hiY);
      TileOfDraws(grid, start, range, rng.source, first, x, y);
      t := ClampedTile(grid, x, y);
    }

    /** `World::SpawnSheep`: appends one freshly initiated sheep, at `position`, or,
        when randomised, at a random whole-pixel position inside the world's
        rectangle. */
    method SpawnSheep(position: Vector2, randomise: bool)
      requires Valid()
      modifies this, rng
      ensures |sheep| == |old(sheep)| + 1 && sheep[..|old(sheep)|] == old(sheep)
      ensures sheep[|sheep| - 1] == S.NewSheep(sheep[|sheep| - 1].position)
      ensures !randomise ==> sheep[|sheep| - 1].position == position && rng.next == old(rng.next)
      ensures randomise ==> InsideBounds(grid.Bounds(), sheep[|sheep| - 1].position)
                            && rng.next == old(rng.next) + 2
      ensures wolf == old(wolf) && herder == old(herder) && running == old(running)
    {
      var p := position;
      if randomise {
        var b := grid.Bounds();
        assert TruncToInt(b.x) == grid.offset.x && TruncToInt(b.y) == grid.offset.y;
        assert TruncToInt(b.x + b.width) == grid.offset.x + grid.size.x * TILE_SIZE;
        assert TruncToInt(b.y + b.height) == grid.offset.y + grid.size.y * TILE_SIZE;
        var x := rng.GetRandomValue(TruncToInt(b.x), TruncToInt(b.x + b.width));
        var y := rng.GetRandomValue(TruncToInt(b.y), TruncToInt(b.y + b.height));
        p := Vector2(x as real, y as real);
      }
      sheep := sheep + [S.NewSheep(p)];
    }

    /** `World::SetSheepAsMate` on sheep `i`. */
    method SetSheepAsMate(i: int)
      requires 0 <= i < |sheep|
      modifies this
      ensures sheep == old(sheep)[i := S.SetAsMate(old(sheep)[i], normalize)]
      ensures sheep[i].isMatedWith && sheep[i].state == S.Reproducing
      ensures wolf == old(wolf) && herder == old(herder) && running == old(running)
    {
      sheep := sheep[i := S.SetAsMate(sheep[i], normalize)];
    }

    /** `World::ResetSheepMate` on sheep `i`. */
    method ResetSheepMate(i: int)
      requires 0 <= i < |sheep|
      modifies this
      ensures sheep == old(sheep)[i := S.ResetMate(old(sheep)[i])]
      ensures sheep[i].state == S.Satiated && !sheep[i].canReproduce
      ensures wolf == old(wolf) && herder == old(herder) && running == old(running)
    {
      sheep := sheep[i := S.ResetMate(sheep[i])];
    }

    /** `World::EatGrass`: the grass of the cell under `position` is despawned, so
        it can no longer be eaten. Nothing else changes. */
    method EatGrass(position: Vector2)
      requires Valid()
      modifies grass
      ensures grass[..] == GrassEatenAt(grid, old(grass[..]), position)
      ensures !CanGrassBeEaten(position)
    {
      var c := grid.PositionToTile(position);
      var idx := grid.Index(c);
      if 0 <= idx < grass.Length {
        grass[idx] := G.Despawn(grass[idx]);
      }
      if grid.IsValidCoord(c) {
        IndexInRange(grid, c);
      }
    }

    /** `World::Defecate`: a dropping is spawned on the manure entry of the cell under
        `position`; the grass there can no longer be eaten. Nothing else changes. */
    method Defecate(position: Vector2)
      requires Valid()
      modifies manure
      ensures manure[..] == ManureDroppedAt(grid, old(manure[..]), position)
      ensures !CanGrassBeEaten(position)
    {
      var c := grid.PositionToTile(position);
      var idx := grid.Index(c);
      if 0 <= idx < manure.Length {
        manure[idx] := M.Spawn(manure[idx]);
      }
      if grid.IsValidCoord(c) {
        IndexInRange(grid, c);
      }
    }

    /** `World::Fertilise(coord, nearby)`, in place. */
    method Fertilise(coord: Point, nearby: Point)
      requires Valid() && grid.IsValidCoord(nearby)
      modifies grass, ground
      ensures (ground[..], grass[..]) == FertiliseLayers(grid, old(ground[..]), old(grass[..]), coord, nearby)
    {
      IndexInRange(grid, nearby);
      var n := grid.Index(nearby);
      grass[n] := grass[n].(isFertilised := true);
      var c := grid.Index(coord);
      if 0 <= c < grass.Length {
        grass[c] := grass[c].(isEdible := false);
      }
      ground[n] := FertiliseGround(ground[n]);
    }

    /** `World::Defertilise(coord, nearby)`, in place. */
    method Defertilise(coord: Point, nearby: Point)
      requires Valid() && grid.IsValidCoord(nearby)
      modifies grass, ground
      ensures (ground[..], grass[..]) == DefertiliseLayers(grid, old(ground[..]), old(grass[..]), coord, nearby)
    {
      IndexInRange(grid, nearby);
      var n := grid.Index(nearby);
      grass[n] := grass[n].(isFertilised := false);
      var c := grid.Index(coord);
      if 0 <= c < grass.Length {
        grass[c] := grass[c].(isEdible := true);
      }
      ground[n] := UnfertiliseGround(ground[n]);
    }
  }
}
