/** `Grass::Update`: the state step of one grass cell, and, for live FullyGrown grass
    that still has seeds, the single seeding round that picks up fertility from the
    neighbouring ground and spawns grass on randomly chosen empty neighbours. */
module GrassBehaviour {
  import opened Geometry
  import opened TileGrid
  import opened Random
  import opened GroundLayer
  import G = GrassLayer
  import opened WorldModel

  /** A cell that will run the seeding round on its next update. */
  predicate Seeds(c: G.Grass)
  {
    G.IsAlive(c) && c.state == G.FullyGrown && c.hasSeedsAvailable
  }

  /** Some tile of `tiles` is in the grid with fertilised ground. */
  predicate AnyFertilised(g: Grid, ground: seq<Ground>, tiles: seq<Point>)
    requires |ground| == g.Count()
  {
    exists j :: 0 <= j < |tiles| && IsGroundFertilisedAt(g, ground, tiles[j])
  }

  /** One target of the seeding loop: an in-grid tile without live grass gets newly
      spawned grass; its walkability is not consulted. */
  function SpreadOne(g: Grid, grass: seq<G.Grass>, t: Point): (r: seq<G.Grass>)
    requires |grass| == g.Count()
    ensures |r| == |grass|
  {
    if g.IsValidCoord(t) && !G.HasGrassAt(g, grass, t) then
      IndexInRange(g, t);
      grass[g.Index(t) := G.Spawn(grass[g.Index(t)])]
    else grass
  }

  /** The seeding loop over the picked tiles, in order. */
  function Spread(g: Grid, grass: seq<G.Grass>, targets: seq<Point>): (r: seq<G.Grass>)
    requires |grass| == g.Count()
    ensures |r| == |grass|
    decreases |targets|
  {
    if targets == [] then grass
    else SpreadOne(g, Spread(g, grass, targets[..|targets| - 1]), targets[|targets| - 1])
  }

  /** What seeding does: live cells are untouched; a cell that changes was dead,
      is the index of an in-grid target, and now holds freshly spawned grass; and
      every in-grid target ends with live grass. */
  lemma {:induction false} SpreadEffect(g: Grid, grass: seq<G.Grass>, targets: seq<Point>)
    requires |grass| == g.Count()
    ensures var r := Spread(g, grass, targets);
      && (forall k :: 0 <= k < |grass| && G.IsAlive(grass[k]) ==> r[k] == grass[k])
      && (forall k :: 0 <= k < |grass| && r[k] != grass[k] ==>
            r[k] == G.Spawn(grass[k]) && exists t :: t in targets && g.IsValidCoord(t) && g.Index(t) == k)
      && (forall t :: t in targets && g.IsValidCoord(t) ==> G.HasGrassAt(g, r, t))
    decreases |targets|
  {
    if targets != [] {
      var n := |targets| - 1;
      var prefix := targets[..n];
      var t := targets[n];
      SpreadEffect(g, grass, prefix);
      var before := Spread(g, grass, prefix);
      var r := SpreadOne(g, before, t);
      assert r == Spread(g, grass, targets);
      forall k | 0 <= k < |grass| && r[k] != grass[k]
        ensures r[k] == G.Spawn(grass[k]) && exists t' :: t' in targets && g.IsValidCoord(t') && g.Index(t') == k
      {
        if before[k] != grass[k] {
          var t' :| t' in prefix && g.IsValidCoord(t') && g.Index(t') == k;
          assert t' in targets;
          assert G.IsAlive(before[k]);
          if g.IsValidCoord(t) {
            IndexInRange(g, t);
          }
        } else {
          IndexInRange(g, t);
          assert t in targets;
        }
      }
      forall t' | t' in targets && g.IsValidCoord(t')
        ensures G.HasGrassAt(g, r, t')
      {
        IndexInRange(g, t');
        if g.IsValidCoord(t) {
          IndexInRange(g, t);
          IndexInjective(g, t, t');
        }
        if t' in prefix {
          assert G.HasGrassAt(g, before, t');
        }
      }
    }
  }

  /** The whole of `Grass::Update` for cell `i`, on the three layers' contents:
      dead grass is left alone; otherwise the state step runs, and a cell that was
      FullyGrown with seeds then takes up fertility from any fertilised neighbouring
      ground, seeds the picked neighbours and spends its seeds. */
  function Updated(g: Grid, ground: seq<Ground>, grass: seq<G.Grass>, i: int, dt: real,
                   source: nat -> nat, first: nat): (r: seq<G.Grass>)
    requires |ground| == g.Count() && |grass| == g.Count() && 0 <= i < |grass|
    ensures |r| == |grass|
  {
    var c := grass[i];
    if !G.IsAlive(c) then grass
    else
      var stepped := grass[i := G.Advance(c, dt)];
      if !Seeds(c) then stepped
      else
        var tiles := Neighbours(c.tileCoord);
        var fed := stepped[i := stepped[i].(isFertilised := stepped[i].isFertilised || AnyFertilised(g, ground, tiles))];
        var spread := Spread(g, fed, Picked(tiles, source, first));
        spread[i := spread[i].(hasSeedsAvailable := false)]
  }

  /** `Grass::Update` on cell `i` of the world. */
  method Update(w: World, i: int, dt: real)
    requires w.Valid() && 0 <= i < w.grass.Length
    modifies w.grass, w.rng
    ensures w.grass[..] == Updated(w.grid, w.ground[..], old(w.grass[..]), i, dt, w.rng.source, old(w.rng.next))
    ensures w.rng.next == old(w.rng.next) + (if Seeds(old(w.grass[i])) then 8 else 0)
  {
    var g := w.grid;
    var c := w.grass[i];
    if !G.IsAlive(c) {
      return;
    }
    w.grass[i] := G.Advance(c, dt);
    if !(c.state == G.FullyGrown && c.hasSeedsAvailable) {
      return;
    }
    var tiles := g.CalculateNeighbouringTiles(g.TileToPosition(c.tileCoord));
    NeighboursOfTilePosition(g, c.tileCoord);
    TakeUpFertility(w, i, tiles);
    var picked := PickTiles(w.rng, tiles);
    SpreadSeeds(w, picked);
    w.grass[i] := w.grass[i].(hasSeedsAvailable := false);
  }

  /** The neighbour scan of the seeding round: any in-grid neighbour with fertilised
      ground marks cell `i` as fertilised. */
  method TakeUpFertility(w: World, i: int, tiles: seq<Point>)
    requires w.Valid() && 0 <= i < w.grass.Length
    modifies w.grass
    ensures w.grass[..] == old(w.grass[..])[i := old(w.grass[i]).(isFertilised :=
      old(w.grass[i]).isFertilised || AnyFertilised(w.grid, w.ground[..], tiles))]
  {
    var g := w.grid;
    ghost var before := w.grass[..];
    for k := 0 to |tiles|
      invariant w.grass[..] == before[i := before[i].(isFertilised := before[i].isFertilised
                                                     || AnyFertilised(g, w.ground[..], tiles[..k]))]
    {
      assert tiles[..k + 1] == tiles[..k] + [tiles[k]];
      if !g.IsValidCoord(tiles[k]) {
        continue;
      }
      IndexInRange(g, tiles[k]);
      if w.ground[g.Index(tiles[k])].fertilised {
        w.grass[i] := w.grass[i].(isFertilised := true);
      }
    }
    assert tiles[..|tiles|] == tiles;
  }

  /** The seeding loop: every picked in-grid tile without live grass gets newly
      spawned grass. */
  method SpreadSeeds(w: World, picked: seq<Point>)
    requires w.Valid()
    modifies w.grass
    ensures w.grass[..] == Spread(w.grid, old(w.grass[..]), picked)
  {
    var g := w.grid;
    for k := 0 to |picked|
      invariant w.grass[..] == Spread(g, old(w.grass[..]), picked[..k])
    {
      var t := picked[k];
      assert picked[..k + 1][..k] == picked[..k];
      if !g.IsValidCoord(t) {
        continue;
      }
      IndexInRange(g, t);
      if !G.IsAlive(w.grass[g.Index(t)]) {
        w.grass[g.Index(t)] := G.Spawn(w.grass[g.Index(t)]);
      }
    }
    assert picked[..|picked|] == picked;
  }

  /** Dead grass is left alone, live grass that does not seed only takes the state
      step, and a seeding cell ends without seeds. Every other cell that changes
      was dead, lies on a picked in-grid neighbour of the seeding cell and now holds
      freshly spawned grass; every picked in-grid neighbour ends with live grass. */
  lemma {:induction false} UpdateEffect(g: Grid, ground: seq<Ground>, grass: seq<G.Grass>, i: int, dt: real,
                                        source: nat -> nat, first: nat)
    requires |ground| == g.Count() && |grass| == g.Count() && 0 <= i < |grass|
    ensures var r := Updated(g, ground, grass, i, dt, source, first);
      && (!G.IsAlive(grass[i]) ==> r == grass)
      && (G.IsAlive(grass[i]) && !Seeds(grass[i]) ==> r == grass[i := G.Advance(grass[i], dt)])
      && (Seeds(grass[i]) ==> !r[i].hasSeedsAvailable)
      && (forall k :: 0 <= k < |grass| && k != i && r[k] != grass[k] ==>
            && Seeds(grass[i]) && !G.IsAlive(grass[k]) && r[k] == G.Spawn(grass[k])
            && exists j :: 0 <= j < 8 && Selects(source(first + j))
                           && g.IsValidCoord(Neighbour(grass[i].tileCoord, j))
                           && g.Index(Neighbour(grass[i].tileCoord, j)) == k)
      && (forall j :: (0 <= j < 8 && Seeds(grass[i]) && Selects(source(first + j))
                       && g.IsValidCoord(Neighbour(grass[i].tileCoord, j))) ==>
            G.HasGrassAt(g, r, Neighbour(grass[i].tileCoord, j)))
  {
    var c := grass[i];
    if Seeds(c) {
      var r := Updated(g, ground, grass, i, dt, source, first);
      var stepped := grass[i := G.Advance(c, dt)];
      var tiles := Neighbours(c.tileCoord);
      var fed := stepped[i := stepped[i].(isFertilised := stepped[i].isFertilised || AnyFertilised(g, ground, tiles))];
      var picked := Picked(tiles, source, first);
      var spread := Spread(g, fed, picked);
      SpreadEffect(g, fed, picked);
      forall k | 0 <= k < |grass| && k != i && r[k] != grass[k]
        ensures && !G.IsAlive(grass[k]) && r[k] == G.Spawn(grass[k])
                && exists j :: 0 <= j < 8 && Selects(source(first + j))
                               && g.IsValidCoord(Neighbour(c.tileCoord, j))
                               && g.Index(Neighbour(c.tileCoord, j)) == k
      {
        assert fed[k] == grass[k];
        var t :| t in picked && g.IsValidCoord(t) && g.Index(t) == k;
        PickedIff(tiles, source, first, t);
        var j :| 0 <= j < |tiles| && tiles[j] == t && Selects(source(first + j));
      }
      forall j | 0 <= j < 8 && Selects(source(first + j)) && g.IsValidCoord(Neighbour(c.tileCoord, j))
        ensures G.HasGrassAt(g, r, Neighbour(c.tileCoord, j))
      {
        PickedIff(tiles, source, first, tiles[j]);
        IndexInRange(g, tiles[j]);
      }
    }
  }

  /** Seeding happens once per spawn: after a seeding update, the next update of the
      same cell, whatever its draws and however the ground looks, only takes the
      state step and touches no other cell. */
  lemma SeedsOnce(g: Grid, ground: seq<Ground>, ground': seq<Ground>, grass: seq<G.Grass>, i: int,
                  dt: real, dt': real, source: nat -> nat, source': nat -> nat, first: nat, first': nat)
    requires |ground| == g.Count() && |ground'| == g.Count() && |grass| == g.Count() && 0 <= i < |grass|
    requires Seeds(grass[i])
    ensures var r := Updated(g, ground, grass, i, dt, source, first);
      Updated(g, ground', r, i, dt', source', first') == (if G.IsAlive(r[i]) then r[i := G.Advance(r[i], dt')] else r)
  {
    UpdateEffect(g, ground, grass, i, dt, source, first);
  }

  /** Seeding does not look at walkability: two grounds with the same fertility flags
      give the same update, so unwalkable neighbours are seeded like walkable ones. */
  lemma SeedingIgnoresWalkability(g: Grid, ground1: seq<Ground>, ground2: seq<Ground>, grass: seq<G.Grass>,
                                  i: int, dt: real, source: nat -> nat, first: nat)
    requires |ground1| == g.Count() && |ground2| == g.Count() && |grass| == g.Count() && 0 <= i < |grass|
    requires forall k :: 0 <= k < g.Count() ==> ground1[k].fertilised == ground2[k].fertilised
    ensures Updated(g, ground1, grass, i, dt, source, first) == Updated(g, ground2, grass, i, dt, source, first)
  {
    var tiles := Neighbours(grass[i].tileCoord);
    if AnyFertilised(g, ground1, tiles) {
      var j :| 0 <= j < |tiles| && IsGroundFertilisedAt(g, ground1, tiles[j]);
      IndexInRange(g, tiles[j]);
      assert IsGroundFertilisedAt(g, ground2, tiles[j]);
    }
    if AnyFertilised(g, ground2, tiles) {
      var j :| 0 <= j < |tiles| && IsGroundFertilisedAt(g, ground2, tiles[j]);
      IndexInRange(g, tiles[j]);
      assert IsGroundFertilisedAt(g, ground1, tiles[j]);
    }
  }
}
