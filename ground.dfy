/** `sim::Ground`: one cell of the ground layer. */
module GroundLayer {
  import opened Geometry
  import opened TileGrid

  /** The sprite the cell shows, kept as a tag. */
  datatype Source = UnfertilisedSource | FertilisedSource

  datatype Ground = Ground(tileCoord: Point, walkable: bool, fertilised: bool, source: Source)

  /** A default-constructed cell: not walkable, unfertilised. */
  const DefaultGround: Ground := Ground(Point(0, 0), false, false, UnfertilisedSource)

  /** `Ground::is_walkable`. */
  predicate IsWalkable(g: Ground)
  {
    g.walkable
  }

  /** `Ground::set_walkable`: walkability becomes `state`; fertility and
      coordinate are kept. */
  function SetWalkable(g: Ground, state: bool): (r: Ground)
    ensures IsWalkable(r) == state
    ensures r.fertilised == g.fertilised && r.source == g.source && r.tileCoord == g.tileCoord
  {
    g.(walkable := state)
  }

  /** `Ground::set_tile_coord`. */
  function SetTileCoord(g: Ground, coord: Point): (r: Ground)
    ensures r.tileCoord == coord
    ensures r.walkable == g.walkable && r.fertilised == g.fertilised && r.source == g.source
  {
    g.(tileCoord := coord)
  }

  /** `Ground::FertiliseGround`: fertile, with the fertilised sprite; walkability and
      coordinate are kept. */
  function FertiliseGround(g: Ground): (r: Ground)
    ensures r.fertilised && r.source == FertilisedSource
    ensures r.walkable == g.walkable && r.tileCoord == g.tileCoord
  {
    g.(fertilised := true, source := FertilisedSource)
  }

  /** `Ground::UnfertiliseGround`: the opposite of FertiliseGround. */
  function UnfertiliseGround(g: Ground): (r: Ground)
    ensures !r.fertilised && r.source == UnfertilisedSource
    ensures r.walkable == g.walkable && r.tileCoord == g.tileCoord
  {
    g.(fertilised := false, source := UnfertilisedSource)
  }

  /** Walkability reads back the last value set, whatever fertility operations came
      after it; the two fertility operations are idempotent and each undoes the other
      on a cell in the matching state. */
  lemma WalkabilityReadsLastSet(g: Ground, state: bool, ops: seq<bool>)
    ensures IsWalkable(ApplyFertility(SetWalkable(g, state), ops)) == state
    ensures FertiliseGround(FertiliseGround(g)) == FertiliseGround(g)
    ensures UnfertiliseGround(UnfertiliseGround(g)) == UnfertiliseGround(g)
    ensures !g.fertilised && g.source == UnfertilisedSource ==> UnfertiliseGround(FertiliseGround(g)) == g
    ensures g.fertilised && g.source == FertilisedSource ==> FertiliseGround(UnfertiliseGround(g)) == g
  {
    FertilityKeepsWalkability(SetWalkable(g, state), ops);
  }

  /** A series of fertility operations: `true` fertilises, `false` unfertilises. */
  function ApplyFertility(g: Ground, ops: seq<bool>): Ground
    decreases |ops|
  {
    if ops == [] then g
    else ApplyFertility(if ops[0] then FertiliseGround(g) else UnfertiliseGround(g), ops[1..])
  }

  lemma {:induction false} FertilityKeepsWalkability(g: Ground, ops: seq<bool>)
    ensures ApplyFertility(g, ops).walkable == g.walkable
    ensures ApplyFertility(g, ops).tileCoord == g.tileCoord
    ensures ops != [] ==> ApplyFertility(g, ops).fertilised == ops[|ops| - 1]
    decreases |ops|
  {
    if ops != [] {
      var next := if ops[0] then FertiliseGround(g) else UnfertiliseGround(g);
      FertilityKeepsWalkability(next, ops[1..]);
      if |ops| > 1 {
        assert ops[1..][|ops[1..]| - 1] == ops[|ops| - 1];
      }
    }
  }

  /** `World::is_walkable`: false off the grid, otherwise the cell's flag. */
  predicate IsWalkableAt(g: Grid, ground: seq<Ground>, c: Point)
    requires |ground| == g.Count()
  {
    g.IsValidCoord(c) && (IndexInRange(g, c); ground[g.Index(c)].walkable)
  }

  /** `World::IsGroundFertilised`: false off the grid, otherwise the cell's flag. */
  predicate IsGroundFertilisedAt(g: Grid, ground: seq<Ground>, c: Point)
    requires |ground| == g.Count()
  {
    g.IsValidCoord(c) && (IndexInRange(g, c); ground[g.Index(c)].fertilised)
  }
}
