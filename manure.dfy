/** `sim::Manure`: one cell of the manure layer. Its update, which fertilises and
    defertilises neighbouring cells, is in ManureBehaviour. */
module ManureLayer {
  import opened Geometry
  import opened TileGrid

  /** Seconds a dropping lasts. */
  const MAX_DURATION: real := 10.0

  datatype Manure = Manure(position: Vector2, tileCoord: Point, duration: real,
                           manureExists: bool, hasFertilised: bool)

  /** A default-constructed dropping: absent, at the origin. */
  const DefaultManure: Manure := Manure(Zero, Point(0, 0), 0.0, false, false)

  /** `Manure::SpawnManure`: present, not yet fertilised, zero duration; where it
      lies is kept. */
  function Spawn(m: Manure): (r: Manure)
    ensures r.manureExists && !r.hasFertilised && r.duration == 0.0
    ensures r.position == m.position && r.tileCoord == m.tileCoord
  {
    m.(manureExists := true, hasFertilised := false, duration := 0.0)
  }

  /** `Manure::DespawnManure`: only the presence flag is cleared. */
  function Despawn(m: Manure): (r: Manure)
    ensures !r.manureExists
    ensures r.position == m.position && r.tileCoord == m.tileCoord
    ensures r.duration == m.duration && r.hasFertilised == m.hasFertilised
  {
    m.(manureExists := false)
  }

  /** `Manure::Initiate`: an absent dropping placed on tile `coord`. */
  function Initiate(g: Grid, coord: Point): (r: Manure)
    ensures !r.manureExists && !r.hasFertilised && r.duration == 0.0
    ensures r.tileCoord == coord
    ensures g.PositionToTile(r.position) == coord
  {
    TileRoundTrip(g, coord);
    Manure(g.TileToPosition(coord), coord, 0.0, false, false)
  }

  /** Spawning again after a despawn starts a fresh dropping on the same tile:
      the two operations only touch the presence, the duration and the
      fertilised flag. */
  lemma SpawnAfterDespawn(m: Manure)
    ensures Spawn(Despawn(m)) == Spawn(m)
    ensures Despawn(Spawn(m)).tileCoord == m.tileCoord && !Despawn(Spawn(m)).hasFertilised
  {
  }
}
