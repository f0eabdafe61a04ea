/** `Manure::update`: a present dropping ages; once it has lasted MAX_DURATION seconds
    it defertilises every in-grid neighbour and disappears; and one single time per
    spawn it fertilises the randomly picked in-grid neighbours whose ground is not yet
    fertilised. */
module ManureBehaviour {
  import opened Geometry
  import opened TileGrid
  import opened Random
  import opened GroundLayer
  import G = GrassLayer
  import M = ManureLayer
  import opened WorldModel

  /** The contents of the three per-tile arrays. */
  datatype Layers = Layers(ground: seq<Ground>, grass: seq<G.Grass>, manure: seq<M.Manure>)
  {
    predicate Fits(g: Grid)
    {
      |ground| == g.Count() && |grass| == g.Count() && |manure| == g.Count()
    }
  }

  /** The expiry loop: `World::Defertilise(coord, t)` for every in-grid tile t. */
  function DefertiliseAll(g: Grid, ground: seq<Ground>, grass: seq<G.Grass>, coord: Point, tiles: seq<Point>)
    : (r: (seq<Ground>, seq<G.Grass>))
    requires |ground| == g.Count() && |grass| == g.Count()
    ensures |r.0| == g.Count() && |r.1| == g.Count()
    decreases |tiles|
  {
    if tiles == [] then (ground, grass)
    else
      var (gr, gs) := DefertiliseAll(g, ground, grass, coord, tiles[..|tiles| - 1]);
      var t := tiles[|tiles| - 1];
      if g.IsValidCoord(t) then DefertiliseLayers(g, gr, gs, coord, t) else (gr, gs)
  }

  /** The fertilise loop: `World::Fertilise(coord, t)` for every in-grid target whose
      ground is not fertilised at that point. */
  function FertilisePicked(g: Grid, ground: seq<Ground>, grass: seq<G.Grass>, coord: Point, targets: seq<Point>)
    : (r: (seq<Ground>, seq<G.Grass>))
    requires |ground| == g.Count() && |grass| == g.Count()
    ensures |r.0| == g.Count() && |r.1| == g.Count()
    decreases |targets|
  {
    if targets == [] then (ground, grass)
    else
      var (gr, gs) := FertilisePicked(g, ground, grass, coord, targets[..|targets| - 1]);
      var t := targets[|targets| - 1];
      if g.IsValidCoord(t) && !IsGroundFertilisedAt(g, gr, t) then FertiliseLayers(g, gr, gs, coord, t)
      else (gr, gs)
  }

  /** A dropping whose next update runs the fertilise pass. */
  predicate WillFertilise(m: M.Manure)
  {
    m.manureExists && !m.hasFertilised
  }

  /** The whole of `Manure::update` for entry `i`. The neighbours are those of the
      tile under the dropping's position, while Fertilise and Defertilise are given
      its recorded tile coordinate. */
  function Updated(g: Grid, l: Layers, i: int, dt: real, source: nat -> nat, first: nat): (r: Layers)
    requires l.Fits(g) && 0 <= i < |l.manure|
    ensures r.Fits(g)
  {
    var m := l.manure[i];
    if !m.manureExists then l
    else
      var aged := m.(duration := m.duration + dt);
      var tiles := g.CalculateNeighbouringTiles(m.position);
      var expired := aged.duration >= M.MAX_DURATION;
      var (gr, gs) := if expired then DefertiliseAll(g, l.ground, l.grass, m.tileCoord, tiles)
                      else (l.ground, l.grass);
      var m' := if expired then M.Despawn(aged) else aged;
      if m'.hasFertilised then Layers(gr, gs, l.manure[i := m'])
      else
        var (gr', gs') := FertilisePicked(g, gr, gs, m.tileCoord, Picked(tiles, source, first));
        Layers(gr', gs', l.manure[i := m'.(hasFertilised := true)])
  }

  /** `Manure::update` on entry `i` of the world. */
  method Update(w: World, i: int, dt: real)
    requires w.Valid() && 0 <= i < w.manure.Length
    modifies w.manure, w.ground, w.grass, w.rng
    ensures Layers(w.ground[..], w.grass[..], w.manure[..]) ==
      Updated(w.grid, Layers(old(w.ground[..]), old(w.grass[..]), old(w.manure[..])), i, dt, w.rng.source, old(w.rng.next))
    ensures w.rng.next == old(w.rng.next) + (if WillFertilise(old(w.manure[i])) then 8 else 0)
  {
    var g := w.grid;
    var m := w.manure[i];
    if !m.manureExists {
      return;
    }
    ghost var manure := w.manure[..];
    ghost var first := w.rng.next;
    var aged := m.(duration := m.duration + dt);
    w.manure[i] := aged;
    var tiles := g.CalculateNeighbouringTiles(m.position);
    if aged.duration >= M.MAX_DURATION {
      DefertiliseNeighbours(w, m.tileCoord, tiles);
      w.manure[i] := M.Despawn(aged);
    }
    var current := w.manure[i];
    assert w.manure[..] == manure[i := current];
    if current.hasFertilised {
      return;
    }
    var picked := PickTiles(w.rng, tiles);
    FertiliseNeighbours(w, m.tileCoord, picked);
    w.manure[i] := current.(hasFertilised := true);
  }

  /** The expiry loop over the neighbours. */
  method DefertiliseNeighbours(w: World, coord: Point, tiles: seq<Point>)
    requires w.Valid()
    modifies w.ground, w.grass
    ensures (w.ground[..], w.grass[..]) == DefertiliseAll(w.grid, old(w.ground[..]), old(w.grass[..]), coord, tiles)
  {
    for k := 0 to |tiles|
      invariant (w.ground[..], w.grass[..]) == DefertiliseAll(w.grid, old(w.ground[..]), old(w.grass[..]), coord, tiles[..k])
    {
      assert tiles[..k + 1][..k] == tiles[..k];
      if !w.grid.IsValidCoord(tiles[k]) {
        continue;
      }
      w.Defertilise(coord, tiles[k]);
    }
    assert tiles[..|tiles|] == tiles;
  }

  /** The fertilise loop over the picked neighbours. */
  method FertiliseNeighbours(w: World, coord: Point, picked: seq<Point>)
    requires w.Valid()
    modifies w.ground, w.grass
    ensures (w.ground[..], w.grass[..]) == FertilisePicked(w.grid, old(w.ground[..]), old(w.grass[..]), coord, picked)
  {
    for k := 0 to |picked|
      invariant (w.ground[..], w.grass[..]) == FertilisePicked(w.grid, old(w.ground[..]), old(w.grass[..]), coord, picked[..k])
    {
      assert picked[..k + 1][..k] == picked[..k];
      if !w.grid.IsValidCoord(picked[k]) {
        continue;
      }
      IndexInRange(w.grid, picked[k]);
      if !IsGroundFertilisedAt(w.grid, w.ground[..], picked[k]) {
        w.Fertilise(coord, picked[k]);
      }
    }
    assert picked[..|picked|] == picked;
  }

  /** After the expiry loop every in-grid neighbour has unfertilised ground and grass
      that is not marked fertilised; cells that are not in-grid neighbours keep their
      ground. */
  lemma {:induction false} DefertiliseAllEffect(g: Grid, ground: seq<Ground>, grass: seq<G.Grass>,
                                                coord: Point, tiles: seq<Point>)
    requires |ground| == g.Count() && |grass| == g.Count()
    ensures var (gr, gs) := DefertiliseAll(g, ground, grass, coord, tiles);
      && (forall t :: t in tiles && g.IsValidCoord(t) ==>
            !IsGroundFertilisedAt(g, gr, t) && (IndexInRange(g, t); !gs[g.Index(t)].isFertilised))
      && (forall k :: 0 <= k < g.Count() && gr[k] != ground[k] ==>
            exists t :: t in tiles && g.IsValidCoord(t) && g.Index(t) == k)
    decreases |tiles|
  {
    if tiles != [] {
      var n := |tiles| - 1;
      DefertiliseAllEffect(g, ground, grass, coord, tiles[..n]);
      var (gr, gs) := DefertiliseAll(g, ground, grass, coord, tiles[..n]);
      var t := tiles[n];
      if g.IsValidCoord(t) {
        FertiliseWritesExactly(g, gr, gs, coord, t);
        IndexInRange(g, t);
      }
      var (gr', gs') := DefertiliseAll(g, ground, grass, coord, tiles);
      forall t' | t' in tiles && g.IsValidCoord(t')
        ensures !IsGroundFertilisedAt(g, gr', t') && (IndexInRange(g, t'); !gs'[g.Index(t')].isFertilised)
      {
        IndexInRange(g, t');
        if t' != t {
          assert t' in tiles[..n];
          if g.IsValidCoord(t) {
            IndexInjective(g, t, t');
          }
        }
      }
      forall k | 0 <= k < g.Count() && gr'[k] != ground[k]
        ensures exists t' :: t' in tiles && g.IsValidCoord(t') && g.Index(t') == k
      {
        if gr[k] != ground[k] {
          var t' :| t' in tiles[..n] && g.IsValidCoord(t') && g.Index(t') == k;
          assert t' in tiles;
        } else {
          assert t in tiles;
        }
      }
    }
  }

  /** The fertilise loop only changes the ground of in-grid targets that were not
      fertilised, and leaves every in-grid target with fertilised ground. */
  lemma {:induction false} FertilisePickedEffect(g: Grid, ground: seq<Ground>, grass: seq<G.Grass>,
                                                 coord: Point, targets: seq<Point>)
    requires |ground| == g.Count() && |grass| == g.Count()
    ensures var (gr, gs) := FertilisePicked(g, ground, grass, coord, targets);
      && (forall k :: 0 <= k < g.Count() && gr[k] != ground[k] ==>
            && !ground[k].fertilised && gr[k] == FertiliseGround(ground[k])
            && exists t :: t in targets && g.IsValidCoord(t) && g.Index(t) == k)
      && (forall t :: t in targets && g.IsValidCoord(t) ==> IsGroundFertilisedAt(g, gr, t))
    decreases |targets|
  {
    if targets != [] {
      var n := |targets| - 1;
      FertilisePickedEffect(g, ground, grass, coord, targets[..n]);
      var (gr, gs) := FertilisePicked(g, ground, grass, coord, targets[..n]);
      var t := targets[n];
      if g.IsValidCoord(t) {
        FertiliseWritesExactly(g, gr, gs, coord, t);
        IndexInRange(g, t);
      }
      var (gr', gs') := FertilisePicked(g, ground, grass, coord, targets);
      forall k | 0 <= k < g.Count() && gr'[k] != ground[k]
        ensures && !ground[k].fertilised && gr'[k] == FertiliseGround(ground[k])
                && exists t' :: t' in targets && g.IsValidCoord(t') && g.Index(t') == k
      {
        if gr[k] != ground[k] {
          var t' :| t' in targets[..n] && g.IsValidCoord(t') && g.Index(t') == k;
          assert t' in targets;
        } else {
          assert t in targets;
        }
      }
      forall t' | t' in targets && g.IsValidCoord(t')
        ensures IsGroundFertilisedAt(g, gr', t')
      {
        IndexInRange(g, t');
        if t' != t {
          assert t' in targets[..n];
          if g.IsValidCoord(t) {
            IndexInjective(g, t, t');
          }
        }
      }
    }
  }

  /** What one update does to the dropping itself: absent manure changes nothing;
      present manure ages by exactly `dt`, is marked as having fertilised, and stops
      existing exactly when the duration reaches MAX_DURATION. No other dropping
      changes. */
  lemma UpdateOwnEntry(g: Grid, l: Layers, i: int, dt: real, source: nat -> nat, first: nat)
    requires l.Fits(g) && 0 <= i < |l.manure|
    ensures var r := Updated(g, l, i, dt, source, first); var m := l.manure[i];
      && (!m.manureExists ==> r == l)
      && (m.manureExists ==>
            && r.manure[i].duration == m.duration + dt && r.manure[i].hasFertilised
            && (r.manure[i].manureExists <==> m.duration + dt < M.MAX_DURATION)
            && r.manure[i].position == m.position && r.manure[i].tileCoord == m.tileCoord)
      && (forall k :: 0 <= k < |l.manure| && k != i ==> r.manure[k] == l.manure[k])
  {
  }

  /** Expiry of a dropping that has already fertilised leaves every in-grid neighbour
      of its tile with unfertilised ground and grass not marked fertilised. */
  lemma ExpiryDefertilises(g: Grid, l: Layers, i: int, dt: real, source: nat -> nat, first: nat)
    requires l.Fits(g) && 0 <= i < |l.manure|
    requires l.manure[i].manureExists && l.manure[i].hasFertilised
    requires l.manure[i].duration + dt >= M.MAX_DURATION
    ensures var r := Updated(g, l, i, dt, source, first);
      && !r.manure[i].manureExists
      && forall j :: 0 <= j < 8 && g.IsValidCoord(Neighbour(g.PositionToTile(l.manure[i].position), j)) ==>
           var t := Neighbour(g.PositionToTile(l.manure[i].position), j);
           !IsGroundFertilisedAt(g, r.ground, t) && (IndexInRange(g, t); !r.grass[g.Index(t)].isFertilised)
  {
    var tiles := g.CalculateNeighbouringTiles(l.manure[i].position);
    DefertiliseAllEffect(g, l.ground, l.grass, l.manure[i].tileCoord, tiles);
  }

  /** Expiry does not return early: a dropping that expires before it has fertilised
      still runs the fertilise pass in the same update, so its picked neighbours end
      fertilised although the dropping is gone. */
  lemma ExpiryStillFertilises(g: Grid, l: Layers, i: int, dt: real, source: nat -> nat, first: nat)
    requires l.Fits(g) && 0 <= i < |l.manure|
    requires WillFertilise(l.manure[i]) && l.manure[i].duration + dt >= M.MAX_DURATION
    ensures var r := Updated(g, l, i, dt, source, first);
      && !r.manure[i].manureExists && r.manure[i].hasFertilised
      && forall j :: 0 <= j < 8 && Selects(source(first + j))
                     && g.IsValidCoord(Neighbour(g.PositionToTile(l.manure[i].position), j)) ==>
           IsGroundFertilisedAt(g, r.ground, Neighbour(g.PositionToTile(l.manure[i].position), j))
  {
    var m := l.manure[i];
    var tiles := g.CalculateNeighbouringTiles(m.position);
    var (gr, gs) := DefertiliseAll(g, l.ground, l.grass, m.tileCoord, tiles);
    var picked := Picked(tiles, source, first);
    FertilisePickedEffect(g, gr, gs, m.tileCoord, picked);
    forall j | 0 <= j < 8 && Selects(source(first + j)) && g.IsValidCoord(tiles[j])
      ensures tiles[j] in picked
    {
      PickedIff(tiles, source, first, tiles[j]);
    }
  }

  /** The fertilise pass runs once per spawn: after a dropping's first update, later
      updates change no ground and no grass until it expires (and, by Update's
      contract, draw no random numbers). */
  lemma FertilisesOnce(g: Grid, l: Layers, i: int, dt: real, dt': real, source: nat -> nat, first: nat,
                       source': nat -> nat, first': nat)
    requires l.Fits(g) && 0 <= i < |l.manure| && WillFertilise(l.manure[i])
    requires l.manure[i].duration + dt < M.MAX_DURATION
    requires l.manure[i].duration + dt + dt' < M.MAX_DURATION
    ensures var r := Updated(g, l, i, dt, source, first);
      var r' := Updated(g, r, i, dt', source', first');
      && !WillFertilise(r.manure[i]) && r.manure[i].manureExists
      && r'.ground == r.ground && r'.grass == r.grass
  {
    var r := Updated(g, l, i, dt, source, first);
    assert r.manure[i] == l.manure[i].(duration := l.manure[i].duration + dt, hasFertilised := true);
  }

  /** The first update of a dropping that does not expire changes the ground only on
      picked in-grid neighbours of its tile that were unfertilised, and fertilises
      them. */
  lemma FertilisePassEffect(g: Grid, l: Layers, i: int, dt: real, source: nat -> nat, first: nat)
    requires l.Fits(g) && 0 <= i < |l.manure| && WillFertilise(l.manure[i])
    requires l.manure[i].duration + dt < M.MAX_DURATION
    ensures var r := Updated(g, l, i, dt, source, first);
      var c := g.PositionToTile(l.manure[i].position);
      && (forall k :: 0 <= k < g.Count() && r.ground[k] != l.ground[k] ==>
            && !l.ground[k].fertilised && r.ground[k] == FertiliseGround(l.ground[k])
            && exists j :: 0 <= j < 8 && Selects(source(first + j))
                           && g.IsValidCoord(Neighbour(c, j)) && g.Index(Neighbour(c, j)) == k)
      && (forall j :: 0 <= j < 8 && Selects(source(first + j)) && g.IsValidCoord(Neighbour(c, j)) ==>
            IsGroundFertilisedAt(g, r.ground, Neighbour(c, j)))
  {
    var m := l.manure[i];
    var c := g.PositionToTile(m.position);
    var tiles := g.CalculateNeighbouringTiles(m.position);
    var picked := Picked(tiles, source, first);
    FertilisePickedEffect(g, l.ground, l.grass, m.tileCoord, picked);
    var r := Updated(g, l, i, dt, source, first);
    assert r.ground == FertilisePicked(g, l.ground, l.grass, m.tileCoord, picked).0;
    forall k | 0 <= k < g.Count() && r.ground[k] != l.ground[k]
      ensures exists j :: 0 <= j < 8 && Selects(source(first + j))
                          && g.IsValidCoord(Neighbour(c, j)) && g.Index(Neighbour(c, j)) == k
    {
      var t :| t in picked && g.IsValidCoord(t) && g.Index(t) == k;
      PickedIff(tiles, source, first, t);
      var j :| 0 <= j < |tiles| && tiles[j] == t && Selects(source(first + j));
    }
    forall j | 0 <= j < 8 && Selects(source(first + j)) && g.IsValidCoord(Neighbour(c, j))
      ensures Neighbour(c, j) in picked
    {
      PickedIff(tiles, source, first, tiles[j]);
    }
  }
}
