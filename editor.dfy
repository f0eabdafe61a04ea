/** `sim::Editor`: the tile editor. Holding the left mouse button over a tile makes
    its ground walkable and revives its grass with a random age; holding the right
    button makes the ground unwalkable and kills the grass; TAB steps through the
    eight path-display settings. The keyboard and mouse readings are parameters,
    and the cursor arrives already in whole pixels. */
module TileEditor {
  import opened Geometry
  import opened TileGrid
  import opened Random
  import opened GroundLayer
  import opened WorldModel
  import G = GrassLayer

  // ---------------------------------------------------------------------------
  // The path-display settings

  /** `Editor::Settings`, in declaration order. */
  datatype Settings =
    | ShowAllPaths | DontShowPaths | ShowOnlyWolfPath | ShowOnlySheepPath | ShowOnlyHerderPath
    | ShowWolfAndSheepPath | ShowSheepAndHerderPath | ShowHerderAndWolfPath

  /** The enumerator's value, `(int)currentSettings`. */
  function SettingToInt(s: Settings): (n: int)
    ensures 0 <= n <= 7
  {
    match s
    case ShowAllPaths => 0
    case DontShowPaths => 1
    case ShowOnlyWolfPath => 2
    case ShowOnlySheepPath => 3
    case ShowOnlyHerderPath => 4
    case ShowWolfAndSheepPath => 5
    case ShowSheepAndHerderPath => 6
    case ShowHerderAndWolfPath => 7
  }

  /** The cast `(Settings)setting` for an in-range value. */
  function IntToSetting(n: int): Settings
    requires 0 <= n <= 7
  {
    if n == 0 then ShowAllPaths
    else if n == 1 then DontShowPaths
    else if n == 2 then ShowOnlyWolfPath
    else if n == 3 then ShowOnlySheepPath
    else if n == 4 then ShowOnlyHerderPath
    else if n == 5 then ShowWolfAndSheepPath
    else if n == 6 then ShowSheepAndHerderPath
    else ShowHerderAndWolfPath
  }

  /** The two casts are inverse to each other. */
  lemma SettingCastsRoundTrip(s: Settings, n: int)
    requires 0 <= n <= 7
    ensures IntToSetting(SettingToInt(s)) == s
    ensures SettingToInt(IntToSetting(n)) == n
  {
  }

  /** What TAB does: one setting further, and from the last back to the first. */
  function NextSetting(s: Settings): Settings
  {
    var n := SettingToInt(s) + 1;
    IntToSetting(if n > 7 then 0 else n)
  }

  /** TAB advances the enumerator value by one modulo eight. */
  lemma NextSettingAdvances(s: Settings)
    ensures SettingToInt(NextSetting(s)) == (SettingToInt(s) + 1) % 8
  {
    SettingCastsRoundTrip(s, if SettingToInt(s) == 7 then 0 else SettingToInt(s) + 1);
  }

  /** TAB pressed `k` times. */
  function Press(s: Settings, k: nat): Settings
    decreases k
  {
    if k == 0 then s else Press(NextSetting(s), k - 1)
  }

  /** Pressing TAB `k` times moves the enumerator `k` places around the cycle of
      eight, so every setting is reached and eight presses come back. */
  lemma {:induction false} PressCycles(s: Settings, k: nat)
    ensures SettingToInt(Press(s, k)) == (SettingToInt(s) + k) % 8
    decreases k
  {
    if k > 0 {
      NextSettingAdvances(s);
      PressCycles(NextSetting(s), k - 1);
    }
  }

  /** Eight presses of TAB leave the setting as it was. */
  lemma EightPressesComeBack(s: Settings)
    ensures Press(s, 8) == s
  {
    PressCycles(s, 8);
    SettingCastsRoundTrip(s, 0);
    SettingCastsRoundTrip(Press(s, 8), 0);
  }

  // ---------------------------------------------------------------------------
  // The hovered tile

  /** raylib's `CheckCollisionPointRec`: left and top edges in, right and bottom
      edges out. */
  predicate PointInRec(p: Vector2, r: Rectangle)
  {
    r.x <= p.x < r.x + r.width && r.y <= p.y < r.y + r.height
  }

  /** Whether the cursor lies over the world's bounds. */
  predicate CursorOnGrid(g: Grid, cursor: Point)
  {
    PointInRec(Vector2(cursor.x as real, cursor.y as real), g.Bounds())
  }

  /** `(m_cursor - world_offset) / tile_size`, with C's truncating division. */
  function HoverCoord(g: Grid, cursor: Point): Point
  {
    Point(CDiv(cursor.x - g.offset.x, TILE_SIZE), CDiv(cursor.y - g.offset.y, TILE_SIZE))
  }

  /** Whether `Editor::update` marks the hovered tile valid. */
  predicate HoverValid(g: Grid, cursor: Point)
  {
    CursorOnGrid(g, cursor) && g.IsValidCoord(HoverCoord(g, cursor))
  }

  /** The division by the tile size keeps a pixel column within a tile's range. */
  lemma DivideIntoTiles(d: int, n: int)
    requires 0 <= d < n * TILE_SIZE
    ensures 0 <= CDiv(d, TILE_SIZE) < n
  {
    assert CDiv(d, TILE_SIZE) == d / TILE_SIZE;
  }

  /** A cursor over the bounds always lies over a tile of the grid, so the hovered
      tile is valid exactly when the cursor is over the bounds, and its flat index
      is then an index of the per-tile arrays. */
  lemma HoverValidIffOnGrid(g: Grid, cursor: Point)
    requires g.WellFormed()
    ensures HoverValid(g, cursor) <==> CursorOnGrid(g, cursor)
    ensures HoverValid(g, cursor) ==> 0 <= g.Index(HoverCoord(g, cursor)) < g.Count()
  {
    if CursorOnGrid(g, cursor) {
      DivideIntoTiles(cursor.x - g.offset.x, g.size.x);
      DivideIntoTiles(cursor.y - g.offset.y, g.size.y);
      var c := HoverCoord(g, cursor);
      assert c.y * g.size.x <= (g.size.y - 1) * g.size.x by {
        MultiplyMonotone(c.y, g.size.y - 1, g.size.x);
      }
    }
  }

  lemma MultiplyMonotone(a: int, b: int, k: int)
    requires a <= b && k >= 0
    ensures a * k <= b * k
  {
  }

  /** The collision test is not redundant: a cursor just left of the bounds gives a
      coordinate that truncation rounds up to column 0. */
  lemma TruncationNeedsBoundsCheck(g: Grid)
    requires g.size.x > 0 && g.size.y > 0 && g.offset.x > 0
    ensures var cursor := Point(g.offset.x - 1, g.offset.y);
      !CursorOnGrid(g, cursor) && g.IsValidCoord(HoverCoord(g, cursor))
  {
  }

  // ---------------------------------------------------------------------------
  // The tile edits, on the layers' contents

  /** The ground layer after `set_ground_active` or `set_ground_inactive`. */
  function GroundSet(ground: seq<Ground>, idx: int, walkable: bool): (r: seq<Ground>)
    requires 0 <= idx < |ground|
  {
    if IsWalkable(ground[idx]) != walkable then ground[idx := SetWalkable(ground[idx], walkable)] else ground
  }

  /** Either ground edit makes exactly cell `idx` walkable or unwalkable as asked,
      keeping its other fields, and no other cell changes. */
  lemma GroundSetEffect(ground: seq<Ground>, idx: int, walkable: bool)
    requires 0 <= idx < |ground|
    ensures GroundSet(ground, idx, walkable) == ground[idx := ground[idx].(walkable := walkable)]
  {
    if IsWalkable(ground[idx]) == walkable {
      assert ground[idx].(walkable := walkable) == ground[idx];
    }
  }

  /** The grass layer after `set_grass_active`, whose one draw is the raw value `raw`:
      dead grass gets age `GetRandomValue(0, 100) / 100`, live grass is kept. */
  function GrassRevived(grass: seq<G.Grass>, idx: int, raw: nat): (r: seq<G.Grass>)
    requires 0 <= idx < |grass|
  {
    if !G.IsAlive(grass[idx]) then grass[idx := grass[idx].(age := RandomValue(raw, 0, 100) as real / 100.0)]
    else grass
  }

  /** The grass layer after `set_grass_inactive`: live grass gets age 0. */
  function GrassKilled(grass: seq<G.Grass>, idx: int): (r: seq<G.Grass>)
    requires 0 <= idx < |grass|
  {
    if G.IsAlive(grass[idx]) then grass[idx := grass[idx].(age := 0.0)] else grass
  }

  /** Reviving touches only the age of a dead cell, which ends between 0 and 1
      (0 when the draw is 0, so the cell may stay dead); a live cell is kept. Killing
      leaves the cell dead, touching only the age of a live one. No other cell
      changes, and neither edit touches the state or the flags. */
  lemma GrassEditsEffect(grass: seq<G.Grass>, idx: int, raw: nat)
    requires 0 <= idx < |grass|
    ensures var r := GrassRevived(grass, idx, raw);
      && |r| == |grass|
      && (G.IsAlive(grass[idx]) ==> r == grass)
      && (!G.IsAlive(grass[idx]) ==> r == grass[idx := grass[idx].(age := r[idx].age)] && 0.0 <= r[idx].age <= 1.0)
    ensures var r := GrassKilled(grass, idx);
      && |r| == |grass| && !G.IsAlive(r[idx])
      && r == grass[idx := grass[idx].(age := r[idx].age)]
      && (!G.IsAlive(grass[idx]) ==> r == grass)
  {
  }

  /** The edit mode of `Editor::update` on the hovered cell `idx`: the left button
      revives, then the right button kills; the number is the raw draws used. */
  function EditTile(ground: seq<Ground>, grass: seq<G.Grass>, idx: int, left: bool, right: bool,
                    source: nat -> nat, next: nat): (r: (seq<Ground>, seq<G.Grass>, nat))
    requires 0 <= idx < |ground| && 0 <= idx < |grass|
  {
    var draws := if left && !G.IsAlive(grass[idx]) then 1 else 0;
    var ground1 := if left then GroundSet(ground, idx, true) else ground;
    var grass1 := if left then GrassRevived(grass, idx, source(next)) else grass;
    if right then (GroundSet(ground1, idx, false), GrassKilled(grass1, idx), next + draws)
    else (ground1, grass1, next + draws)
  }

  /** The right button wins: with it held the tile ends unwalkable with dead grass,
      whatever the left button does; with only the left button held the tile ends
      walkable and its grass is live or was dead with a draw of 0. Only cell `idx`
      of either layer changes, and at most one draw is used. */
  lemma EditTileEffect(ground: seq<Ground>, grass: seq<G.Grass>, idx: int, left: bool, right: bool,
                       source: nat -> nat, next: nat)
    requires 0 <= idx < |ground| && 0 <= idx < |grass|
    ensures var (gr, gs, n) := EditTile(ground, grass, idx, left, right, source, next);
      && |gr| == |ground| && |gs| == |grass|
      && (right ==> !IsWalkable(gr[idx]) && !G.IsAlive(gs[idx]))
      && (left && !right ==> IsWalkable(gr[idx]) && (G.IsAlive(grass[idx]) ==> gs[idx] == grass[idx]))
      && (!left && !right ==> gr == ground && gs == grass)
      && (forall k :: 0 <= k < |ground| && k != idx ==> gr[k] == ground[k])
      && (forall k :: 0 <= k < |grass| && k != idx ==> gs[k] == grass[k])
      && next <= n <= next + 1
  {
    GroundSetEffect(ground, idx, true);
    GroundSetEffect(if left then GroundSet(ground, idx, true) else ground, idx, false);
    GrassEditsEffect(grass, idx, source(next));
    GrassEditsEffect(if left then GrassRevived(grass, idx, source(next)) else grass, idx, source(next));
  }

  // ---------------------------------------------------------------------------
  // The editor helpers on the vectors, and the editor

  /** `editor::set_ground_active`. */
  method SetGroundActive(ground: array<Ground>, coord: Point, worldSize: Point)
    requires 0 <= coord.y * worldSize.x + coord.x < ground.Length
    modifies ground
    ensures ground[..] == GroundSet(old(ground[..]), coord.y * worldSize.x + coord.x, true)
  {
    var index := coord.y * worldSize.x + coord.x;
    if !IsWalkable(ground[index]) {
      ground[index] := SetWalkable(ground[index], true);
    }
  }

  /** `editor::set_ground_inactive`. */
  method SetGroundInactive(ground: array<Ground>, coord: Point, worldSize: Point)
    requires 0 <= coord.y * worldSize.x + coord.x < ground.Length
    modifies ground
    ensures ground[..] == GroundSet(old(ground[..]), coord.y * worldSize.x + coord.x, false)
  {
    var index := coord.y * worldSize.x + coord.x;
    if IsWalkable(ground[index]) {
      ground[index] := SetWalkable(ground[index], false);
    }
  }

  /** `editor::set_grass_active`, drawing from `rng` only for dead grass. */
  method SetGrassActive(grass: array<G.Grass>, coord: Point, worldSize: Point, rng: Rng)
    requires 0 <= coord.y * worldSize.x + coord.x < grass.Length
    modifies grass, rng
    ensures grass[..] == GrassRevived(old(grass[..]), coord.y * worldSize.x + coord.x, rng.source(old(rng.next)))
    ensures rng.next == old(rng.next) + (if G.IsAlive(old(grass[coord.y * worldSize.x + coord.x])) then 0 else 1)
  {
    var index := coord.y * worldSize.x + coord.x;
    if !G.IsAlive(grass[index]) {
      var v := rng.GetRandomValue(0, 100);
      grass[index] := grass[index].(age := v as real / 100.0);
    }
  }

  /** `editor::set_grass_inactive`. */
  method SetGrassInactive(grass: array<G.Grass>, coord: Point, worldSize: Point)
    requires 0 <= coord.y * worldSize.x + coord.x < grass.Length
    modifies grass
    ensures grass[..] == GrassKilled(old(grass[..]), coord.y * worldSize.x + coord.x)
  {
    var index := coord.y * worldSize.x + coord.x;
    if G.IsAlive(grass[index]) {
      grass[index] := grass[index].(age := 0.0);
    }
  }

  /** The edit mode of `Editor::update` on a hovered tile: the left button makes
      the tile walkable and revives its grass, then the right button makes it
      unwalkable and kills its grass. */
  method EditHovered(w: World, coord: Point, left: bool, right: bool)
    requires w.Valid() && 0 <= w.grid.Index(coord) < w.grid.Count()
    modifies w.ground, w.grass, w.rng
    ensures (w.ground[..], w.grass[..], w.rng.next) ==
      EditTile(old(w.ground[..]), old(w.grass[..]), w.grid.Index(coord), left, right, w.rng.source, old(w.rng.next))
  {
    if left {
      SetGroundActive(w.ground, coord, w.grid.size);
      SetGrassActive(w.grass, coord, w.grid.size, w.rng);
    }
    if right {
      SetGroundInactive(w.ground, coord, w.grid.size);
      SetGrassInactive(w.grass, coord, w.grid.size);
    }
  }

  class Editor {
    const world: World
    var cursor: Point
    var tileCoord: Point
    var isTileValid: bool
    var tileIndex: int
    var currentSettings: Settings

    /** `Editor::Editor`: showing all paths, with no valid hovered tile. */
    constructor (world: World)
      ensures this.world == world && currentSettings == ShowAllPaths && !isTileValid && tileIndex == 0
      ensures cursor == Point(0, 0) && tileCoord == Point(0, 0)
    {
      this.world := world;
      cursor := Point(0, 0);
      tileCoord := Point(0, 0);
      isTileValid := false;
      tileIndex := 0;
      currentSettings := ShowAllPaths;
    }

    /** `Editor::update`: TAB steps the setting; the cursor's tile becomes the
        hovered tile when the cursor is over the world; on a valid hovered tile the
        held buttons edit it as EditTile says. It always returns true. */
    method Update(dt: real, tabPressed: bool, mouse: Point, leftDown: bool, rightDown: bool) returns (r: bool)
      requires world.Valid()
      modifies this, world.ground, world.grass, world.rng
      ensures r
      ensures currentSettings == (if tabPressed then NextSetting(old(currentSettings)) else old(currentSettings))
      ensures cursor == mouse && isTileValid == CursorOnGrid(world.grid, mouse)
      ensures isTileValid ==>
        && tileCoord == HoverCoord(world.grid, mouse) && tileIndex == world.grid.Index(tileCoord)
        && 0 <= tileIndex < world.grid.Count()
        && (world.ground[..], world.grass[..], world.rng.next) ==
             EditTile(old(world.ground[..]), old(world.grass[..]), tileIndex, leftDown, rightDown,
                      world.rng.source, old(world.rng.next))
      ensures !isTileValid ==>
        && tileCoord == old(tileCoord) && tileIndex == old(tileIndex)
        && world.ground[..] == old(world.ground[..]) && world.grass[..] == old(world.grass[..])
        && world.rng.next == old(world.rng.next)
    {
      if tabPressed {
        var setting := SettingToInt(currentSettings);
        setting := setting + 1;
        if setting > 7 {
          setting := 0;
        }
        currentSettings := IntToSetting(setting);
      }

      var g := world.grid;
      isTileValid := false;
      cursor := mouse;
      HoverValidIffOnGrid(g, mouse);
      if CursorOnGrid(g, cursor) {
        var hover := HoverCoord(g, cursor);
        if hover.x >= 0 && hover.x < g.size.x {
          if hover.y >= 0 && hover.y < g.size.y {
            isTileValid := true;
            tileCoord := hover;
            tileIndex := hover.y * g.size.x + hover.x;
          }
        }
      }

      if isTileValid {
        EditHovered(world, tileCoord, leftDown, rightDown);
      }
      r := true;
    }
  }
}
