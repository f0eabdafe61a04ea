/** The A* search of `World::AStarPathFinding` over the ground layer: 8-neighbour
    steps of cost 1, a closed-set vector, a per-tile record array, a priority queue
    that may hold several entries for one tile, and the path rebuilt by following
    parent links through a stack. The grid and the ground layer are the only parts
    of the world the search reads. */
module PathFinding {
  import opened Geometry
  import opened TileGrid
  import opened GroundLayer

  /** The largest finite single-precision float, the "unset" marker of a record. */
  const FLT_MAX: real := 340282346638528859811704183484516925440.0

  /** `sim::Tile`: the search record of one tile. */
  datatype Tile = Tile(fValue: real, gScore: real, heuristicValue: real, coord: Point, parent: Point)

  /** A default-constructed record: all scores FLT_MAX, coordinate and parent {-1, -1}. */
  const DefaultTile: Tile := Tile(FLT_MAX, FLT_MAX, FLT_MAX, NoTile, NoTile)

  /** The record the search seeds for its start tile: zero scores, its own parent. */
  function StartTile(start: Point): Tile
  {
    Tile(0.0, 0.0, 0.0, start, start)
  }

  /** A path as the search reports it: the tiles after `start`, each an 8-neighbour
      of the one before, all walkable, ending at `target`. */
  predicate IsPath(g: Grid, ground: seq<Ground>, start: Point, path: seq<Point>, target: Point)
    requires |ground| == g.Count()
  {
    && |path| > 0 && path[|path| - 1] == target && Adjacent(start, path[0])
    && (forall k :: 0 <= k < |path| - 1 ==> Adjacent(path[k], path[k + 1]))
    && (forall k :: 0 <= k < |path| ==> IsWalkableAt(g, ground, path[k]))
  }

  /** The record of a walkable tile. */
  function At(g: Grid, ground: seq<Ground>, tiles: seq<Tile>, c: Point): Tile
    requires |ground| == g.Count() == |tiles| && IsWalkableAt(g, ground, c)
  {
    IndexInRange(g, c);
    tiles[g.Index(c)]
  }

  /** Whether a walkable tile is closed. */
  predicate ClosedAt(g: Grid, ground: seq<Ground>, closed: seq<bool>, c: Point)
    requires |ground| == g.Count() == |closed| && IsWalkableAt(g, ground, c)
  {
    IndexInRange(g, c);
    closed[g.Index(c)]
  }

  // ---------------------------------------------------------------------------
  // The priority queue

  /** `frontier.top()`: the position of an entry of least f; among equal f the
      earliest pushed is taken. */
  method PopMin(frontier: seq<Tile>) returns (m: nat)
    requires frontier != []
    ensures m < |frontier|
    ensures forall j :: 0 <= j < |frontier| ==> frontier[m].fValue <= frontier[j].fValue
    ensures forall j :: 0 <= j < m ==> frontier[m].fValue < frontier[j].fValue
  {
    m := 0;
    var j := 1;
    while j < |frontier|
      invariant 1 <= j <= |frontier| && m < j
      invariant forall i :: 0 <= i < j ==> frontier[m].fValue <= frontier[i].fValue
      invariant forall i :: 0 <= i < m ==> frontier[m].fValue < frontier[i].fValue
    {
      if frontier[j].fValue < frontier[m].fValue {
        m := j;
      }
      j := j + 1;
    }
  }

  // ---------------------------------------------------------------------------
  // Exploring one neighbour

  /** The effect of `World::ExploreNeighbours`: the flag it returns, the record array
      and the queue afterwards. */
  function Explore(g: Grid, ground: seq<Ground>, closed: seq<bool>, tiles: seq<Tile>, frontier: seq<Tile>,
                   nearby: Point, target: Point, searchStart: Point,
                   heuristic: (Point, Point) -> real): (bool, seq<Tile>, seq<Tile>)
    requires |ground| == g.Count() == |closed| == |tiles| && IsWalkableAt(g, ground, searchStart)
  {
    if !IsWalkableAt(g, ground, nearby) then (false, tiles, frontier)
    else
      IndexInRange(g, nearby);
      var ni := g.Index(nearby);
      if nearby == target then (true, tiles[ni := tiles[ni].(parent := searchStart)], frontier)
      else if closed[ni] then (false, tiles, frontier)
      else
        var gValue := At(g, ground, tiles, searchStart).gScore + 1.0;
        var hValue := heuristic(nearby, target);
        var fValue := gValue + hValue;
        if tiles[ni].fValue > fValue || tiles[ni].fValue == FLT_MAX then
          var t := Tile(fValue, gValue, hValue, nearby, searchStart);
          (false, tiles[ni := t], frontier + [t])
        else (false, tiles, frontier)
  }

  /** `World::ExploreNeighbours`: a walkable target ends the search with its parent
      set; a walkable, unclosed tile gets a new record (pushed on the queue) when it
      had none or the new f is strictly smaller; nothing else is written. */
  method ExploreNeighbours(g: Grid, ground: seq<Ground>, closed: array<bool>, tiles: array<Tile>,
                           frontier: seq<Tile>, nearby: Point, target: Point, searchStart: Point,
                           heuristic: (Point, Point) -> real)
    returns (found: bool, frontier': seq<Tile>)
    requires |ground| == g.Count() == closed.Length == tiles.Length
    requires IsWalkableAt(g, ground, searchStart)
    modifies tiles
    ensures (found, tiles[..], frontier') ==
            Explore(g, ground, closed[..], old(tiles[..]), frontier, nearby, target, searchStart, heuristic)
  {
    if !IsWalkableAt(g, ground, nearby) {
      return false, frontier;
    }
    IndexInRange(g, nearby);
    IndexInRange(g, searchStart);
    var ni := g.Index(nearby);
    if nearby == target {
      tiles[ni] := tiles[ni].(parent := searchStart);
      return true, frontier;
    }
    if closed[ni] {
      return false, frontier;
    }
    var gValue := tiles[g.Index(searchStart)].gScore + 1.0;
    var hValue := heuristic(nearby, target);
    var fValue := gValue + hValue;
    frontier' := frontier;
    if tiles[ni].fValue > fValue || tiles[ni].fValue == FLT_MAX {
      var t := Tile(fValue, gValue, hValue, nearby, searchStart);
      frontier' := frontier + [t];
      tiles[ni] := t;
    }
    found := false;
  }

  // ---------------------------------------------------------------------------
  // The search invariant

  /** The start's record is the seed, the target's is untouched and unclosed. */
  ghost predicate Ends(g: Grid, ground: seq<Ground>, tiles: seq<Tile>, start: Point, target: Point)
  {
    && |ground| == g.Count() == |tiles|
    && IsWalkableAt(g, ground, start) && IsWalkableAt(g, ground, target) && start != target
    && At(g, ground, tiles, start) == StartTile(start)
  }

  /** Record `i` belongs to a walkable tile whose parent is an adjacent walkable tile,
      closed, one step nearer the start. */
  ghost predicate RecordOk(g: Grid, ground: seq<Ground>, closed: seq<bool>, tiles: seq<Tile>, i: int)
    requires |ground| == g.Count() == |closed| == |tiles| && 0 <= i < |tiles|
  {
    var t := tiles[i];
    && IsWalkableAt(g, ground, t.coord) && g.Index(t.coord) == i
    && IsWalkableAt(g, ground, t.parent) && Adjacent(t.parent, t.coord)
    && ClosedAt(g, ground, closed, t.parent)
    && At(g, ground, tiles, t.parent).gScore + 1.0 == t.gScore && t.gScore >= 1.0
  }

  /** A walkable neighbour of a closed tile is not the target and is closed or
      recorded. */
  ghost predicate Settled(g: Grid, ground: seq<Ground>, closed: seq<bool>, tiles: seq<Tile>,
                          target: Point, nb: Point)
    requires |ground| == g.Count() == |closed| == |tiles|
  {
    IsWalkableAt(g, ground, nb) ==>
      nb != target && (ClosedAt(g, ground, closed, nb) || At(g, ground, tiles, nb) != DefaultTile)
  }

  ghost predicate SettledUpTo(g: Grid, ground: seq<Ground>, closed: seq<bool>, tiles: seq<Tile>,
                              target: Point, c: Point, n: int)
    requires |ground| == g.Count() == |closed| == |tiles|
  {
    forall k :: 0 <= k < n && k < 8 ==> Settled(g, ground, closed, tiles, target, Neighbour(c, k))
  }

  /** Everything the search keeps true between two explored neighbours, except the
      completeness of the tile being expanded (`current`, done up to neighbour `k`). */
  ghost predicate Inv(g: Grid, ground: seq<Ground>, closed: seq<bool>, tiles: seq<Tile>, frontier: seq<Tile>,
                      start: Point, target: Point, current: int, k: int)
  {
    && |ground| == g.Count() == |closed| == |tiles|
    && Ends(g, ground, tiles, start, target)
    && At(g, ground, tiles, target) == DefaultTile && !ClosedAt(g, ground, closed, target)
    && (forall i :: 0 <= i < |tiles| && i != g.Index(start) ==>
          tiles[i] == DefaultTile || RecordOk(g, ground, closed, tiles, i))
    && (forall i :: 0 <= i < |tiles| && closed[i] ==> i == g.Index(start) || tiles[i] != DefaultTile)
    && (forall j :: 0 <= j < |frontier| ==>
          IsWalkableAt(g, ground, frontier[j].coord) &&
          (frontier[j] == StartTile(start) || At(g, ground, tiles, frontier[j].coord) != DefaultTile))
    && (forall i :: 0 <= i < |tiles| && !closed[i] && tiles[i] != DefaultTile ==> tiles[i] in frontier)
    && (ClosedAt(g, ground, closed, start) || forall j :: 0 <= j < |frontier| ==> frontier[j] == StartTile(start))
    && (forall i :: 0 <= i < |tiles| && closed[i] && i != current ==>
          IsWalkableAt(g, ground, tiles[i].coord) &&
          SettledUpTo(g, ground, closed, tiles, target, tiles[i].coord, 8))
    && (0 <= current < |tiles| ==>
          ClosedAt(g, ground, closed, start) &&
          closed[current] && IsWalkableAt(g, ground, tiles[current].coord) &&
          g.Index(tiles[current].coord) == current &&
          SettledUpTo(g, ground, closed, tiles, target, tiles[current].coord, k))
  }

  /** The records of a closed tile describe that tile. */
  lemma ClosedCoord(g: Grid, ground: seq<Ground>, closed: seq<bool>, tiles: seq<Tile>, frontier: seq<Tile>,
                    start: Point, target: Point, current: int, k: int, i: int)
    requires Inv(g, ground, closed, tiles, frontier, start, target, current, k)
    requires 0 <= i < |tiles| && (closed[i] || tiles[i] != DefaultTile)
    ensures IsWalkableAt(g, ground, tiles[i].coord) && g.Index(tiles[i].coord) == i
  {
    if i == g.Index(start) {
      IndexInRange(g, start);
    } else {
      assert tiles[i] != DefaultTile;
    }
  }

  // ---------------------------------------------------------------------------
  // Termination measure of the main loop

  function CountFalse(s: seq<bool>): nat
    decreases |s|
  {
    if s == [] then 0 else (if s[0] then 0 else 1) + CountFalse(s[1..])
  }

  lemma {:induction false} CountFalseSet(s: seq<bool>, i: int)
    requires 0 <= i < |s| && !s[i]
    ensures CountFalse(s[i := true]) == CountFalse(s) - 1
    decreases |s|
  {
    if i == 0 {
      assert s[i := true][1..] == s[1..];
    } else {
      assert s[i := true][1..] == s[1..][i - 1 := true];
      CountFalseSet(s[1..], i - 1);
    }
  }

  // ---------------------------------------------------------------------------
  // How the invariant survives each step

  /** A record stays well-formed while the records of closed tiles stay put and more
      tiles get closed. */
  lemma RecordOkFrame(g: Grid, ground: seq<Ground>, closed: seq<bool>, tiles: seq<Tile>,
                      closed': seq<bool>, tiles': seq<Tile>, i: int)
    requires |ground| == g.Count() == |closed| == |tiles| == |closed'| == |tiles'| && 0 <= i < |tiles|
    requires RecordOk(g, ground, closed, tiles, i) && tiles'[i] == tiles[i]
    requires forall j :: 0 <= j < |tiles| && closed[j] ==> closed'[j] && tiles'[j] == tiles[j]
    ensures RecordOk(g, ground, closed', tiles', i)
  {
    IndexInRange(g, tiles[i].parent);
  }

  /** Settled neighbours stay settled while records are only added and tiles only
      closed. */
  lemma SettledFrame(g: Grid, ground: seq<Ground>, closed: seq<bool>, tiles: seq<Tile>,
                     closed': seq<bool>, tiles': seq<Tile>, target: Point, c: Point, n: int)
    requires |ground| == g.Count() == |closed| == |tiles| == |closed'| == |tiles'|
    requires SettledUpTo(g, ground, closed, tiles, target, c, n)
    requires forall j :: 0 <= j < |tiles| && closed[j] ==> closed'[j]
    requires forall j :: 0 <= j < |tiles| && tiles[j] != DefaultTile ==> tiles'[j] != DefaultTile
    ensures SettledUpTo(g, ground, closed', tiles', target, c, n)
  {
    forall k | 0 <= k < n && k < 8
      ensures Settled(g, ground, closed', tiles', target, Neighbour(c, k))
    {
      var nb := Neighbour(c, k);
      if IsWalkableAt(g, ground, nb) {
        IndexInRange(g, nb);
      }
    }
  }

  /** Removing a queue entry whose tile is already closed keeps the invariant. */
  lemma SkipKeepsInv(g: Grid, ground: seq<Ground>, closed: seq<bool>, tiles: seq<Tile>, frontier: seq<Tile>,
                     start: Point, target: Point, m: int)
    requires Inv(g, ground, closed, tiles, frontier, start, target, -1, 0)
    requires 0 <= m < |frontier| && ClosedAt(g, ground, closed, frontier[m].coord)
    ensures Inv(g, ground, closed, tiles, frontier[..m] + frontier[m + 1..], start, target, -1, 0)
  {
    var e := frontier[m];
    var rest := frontier[..m] + frontier[m + 1..];
    IndexInRange(g, e.coord);
    forall i | 0 <= i < |tiles| && !closed[i] && tiles[i] != DefaultTile
      ensures tiles[i] in rest
    {
      ClosedCoord(g, ground, closed, tiles, frontier, start, target, -1, 0, i);
      assert tiles[i] != e;
      InAfterRemoval(frontier, m, tiles[i]);
    }
    forall j | 0 <= j < |rest|
      ensures IsWalkableAt(g, ground, rest[j].coord) &&
              (rest[j] == StartTile(start) || At(g, ground, tiles, rest[j].coord) != DefaultTile)
    {
      if j < m { assert rest[j] == frontier[j]; } else { assert rest[j] == frontier[j + 1]; }
    }
  }

  lemma InAfterRemoval(s: seq<Tile>, m: int, x: Tile)
    requires 0 <= m < |s| && x in s && x != s[m]
    ensures x in s[..m] + s[m + 1..]
  {
    var j :| 0 <= j < |s| && s[j] == x;
    if j < m {
      assert (s[..m] + s[m + 1..])[j] == x;
    } else {
      assert (s[..m] + s[m + 1..])[j - 1] == x;
    }
  }

  /** Closing the tile of the entry just taken off the queue keeps the invariant, with
      that tile as the one being expanded and none of its neighbours explored yet. */
  lemma CloseKeepsInv(g: Grid, ground: seq<Ground>, closed: seq<bool>, tiles: seq<Tile>, frontier: seq<Tile>,
                      start: Point, target: Point, m: int)
    requires Inv(g, ground, closed, tiles, frontier, start, target, -1, 0)
    requires 0 <= m < |frontier| && !ClosedAt(g, ground, closed, frontier[m].coord)
    ensures var ci := g.Index(frontier[m].coord);
      && 0 <= ci < |tiles| && tiles[ci].coord == frontier[m].coord
      && Inv(g, ground, closed[ci := true], tiles, frontier[..m] + frontier[m + 1..], start, target, ci, 0)
  {
    var e := frontier[m];
    var rest := frontier[..m] + frontier[m + 1..];
    IndexInRange(g, e.coord);
    IndexInRange(g, start);
    IndexInRange(g, target);
    var ci := g.Index(e.coord);
    var closed' := closed[ci := true];
    assert tiles[ci] != DefaultTile by {
      if e == StartTile(start) {
        assert ci == g.Index(start);
      }
    }
    ClosedCoord(g, ground, closed, tiles, frontier, start, target, -1, 0, ci);
    IndexInjective(g, tiles[ci].coord, e.coord);
    IndexInjective(g, e.coord, target);
    assert ClosedAt(g, ground, closed', start) by {
      if !ClosedAt(g, ground, closed, start) {
        assert e == StartTile(start);
      }
    }
    forall i | 0 <= i < |tiles| && i != g.Index(start) && tiles[i] != DefaultTile
      ensures RecordOk(g, ground, closed', tiles, i)
    {
      RecordOkFrame(g, ground, closed, tiles, closed', tiles, i);
    }
    forall i | 0 <= i < |tiles| && !closed'[i] && tiles[i] != DefaultTile
      ensures tiles[i] in rest
    {
      ClosedCoord(g, ground, closed, tiles, frontier, start, target, -1, 0, i);
      assert tiles[i] != e;
      InAfterRemoval(frontier, m, tiles[i]);
    }
    forall j | 0 <= j < |rest|
      ensures IsWalkableAt(g, ground, rest[j].coord) &&
              (rest[j] == StartTile(start) || At(g, ground, tiles, rest[j].coord) != DefaultTile)
    {
      if j < m { assert rest[j] == frontier[j]; } else { assert rest[j] == frontier[j + 1]; }
    }
    forall i | 0 <= i < |tiles| && closed'[i] && i != ci
      ensures IsWalkableAt(g, ground, tiles[i].coord) &&
              SettledUpTo(g, ground, closed', tiles, target, tiles[i].coord, 8)
    {
      SettledFrame(g, ground, closed, tiles, closed', tiles, target, tiles[i].coord, 8);
    }
  }

  /** Once all eight neighbours of the expanded tile are explored it counts as any
      other closed tile. */
  lemma ExpandedKeepsInv(g: Grid, ground: seq<Ground>, closed: seq<bool>, tiles: seq<Tile>, frontier: seq<Tile>,
                         start: Point, target: Point, current: int)
    requires Inv(g, ground, closed, tiles, frontier, start, target, current, 8)
    ensures Inv(g, ground, closed, tiles, frontier, start, target, -1, 0)
  {
  }

  // ---------------------------------------------------------------------------
  // The parent tree the path is rebuilt from

  /** A tile the parent links may lead to: the start, or a recorded tile other than
      the target. */
  ghost predicate Linked(g: Grid, ground: seq<Ground>, tiles: seq<Tile>, start: Point, target: Point, p: Point)
    requires |ground| == g.Count() == |tiles|
  {
    IsWalkableAt(g, ground, p) && p != target && (p == start || At(g, ground, tiles, p) != DefaultTile)
  }

  /** What `GetPath` needs of the records: every record other than the start's and the
      target's links its tile to an adjacent linked tile one step nearer the start,
      and the target's parent is an adjacent linked tile. */
  ghost predicate ParentTree(g: Grid, ground: seq<Ground>, tiles: seq<Tile>, start: Point, target: Point)
  {
    && Ends(g, ground, tiles, start, target)
    && (forall i :: 0 <= i < |tiles| && i != g.Index(start) && i != g.Index(target) && tiles[i] != DefaultTile ==>
          var t := tiles[i];
          && IsWalkableAt(g, ground, t.coord) && g.Index(t.coord) == i
          && Adjacent(t.parent, t.coord) && Linked(g, ground, tiles, start, target, t.parent)
          && At(g, ground, tiles, t.parent).gScore + 1.0 == t.gScore && t.gScore >= 1.0)
    && Adjacent(At(g, ground, tiles, target).parent, target)
    && Linked(g, ground, tiles, start, target, At(g, ground, tiles, target).parent)
  }

  /** Exploring one neighbour of the tile being expanded: when it reaches the target
      the records form a parent tree, otherwise the invariant holds with one more
      neighbour explored; the expanded tile's own record is never touched. */
  lemma ExploreStep(g: Grid, ground: seq<Ground>, closed: seq<bool>, tiles: seq<Tile>, frontier: seq<Tile>,
                    start: Point, target: Point, current: int, k: int, heuristic: (Point, Point) -> real)
    requires Inv(g, ground, closed, tiles, frontier, start, target, current, k)
    requires 0 <= current < |tiles| && 0 <= k < 8
    ensures var c := tiles[current].coord;
      var r := Explore(g, ground, closed, tiles, frontier, Neighbour(c, k), target, c, heuristic);
      && |r.1| == |tiles| && r.1[current] == tiles[current]
      && (r.0 ==> ParentTree(g, ground, r.1, start, target))
      && (!r.0 ==> Inv(g, ground, closed, r.1, r.2, start, target, current, k + 1))
  {
    var c := tiles[current].coord;
    var nb := Neighbour(c, k);
    NeighbourIffAdjacent(c, nb);
    IndexInRange(g, start);
    IndexInRange(g, target);
    IndexInjective(g, start, target);
    if !IsWalkableAt(g, ground, nb) {
    } else if nb == target {
      ExploreHit(g, ground, closed, tiles, frontier, start, target, current, k, heuristic);
    } else {
      IndexInRange(g, nb);
      if !ClosedAt(g, ground, closed, nb) {
        ExploreRecord(g, ground, closed, tiles, frontier, start, target, current, k, heuristic);
      }
    }
  }

  lemma ExploreHit(g: Grid, ground: seq<Ground>, closed: seq<bool>, tiles: seq<Tile>, frontier: seq<Tile>,
                   start: Point, target: Point, current: int, k: int, heuristic: (Point, Point) -> real)
    requires Inv(g, ground, closed, tiles, frontier, start, target, current, k)
    requires 0 <= current < |tiles| && 0 <= k < 8
    requires Neighbour(tiles[current].coord, k) == target
    ensures var c := tiles[current].coord;
      var ti := g.Index(target);
      0 <= ti < |tiles| && ti != current &&
      ParentTree(g, ground, tiles[ti := tiles[ti].(parent := c)], start, target)
  {
    var c := tiles[current].coord;
    IndexInRange(g, start);
    IndexInRange(g, target);
    IndexInjective(g, start, target);
    IndexInjective(g, c, target);
    NeighbourIffAdjacent(c, target);
    var ti := g.Index(target);
    var tiles' := tiles[ti := tiles[ti].(parent := c)];
    assert c == start || tiles[current] != DefaultTile;
    IndexInjective(g, c, start);
    forall i | 0 <= i < |tiles'| && i != g.Index(start) && i != ti && tiles'[i] != DefaultTile
      ensures IsWalkableAt(g, ground, tiles'[i].coord) && g.Index(tiles'[i].coord) == i
      ensures Adjacent(tiles'[i].parent, tiles'[i].coord)
      ensures Linked(g, ground, tiles', start, target, tiles'[i].parent)
      ensures At(g, ground, tiles', tiles'[i].parent).gScore + 1.0 == tiles'[i].gScore
      ensures tiles'[i].gScore >= 1.0
    {
      assert RecordOk(g, ground, closed, tiles, i);
      var p := tiles[i].parent;
      IndexInRange(g, p);
      IndexInjective(g, p, target);
      IndexInjective(g, p, start);
    }
  }

  lemma ExploreRecord(g: Grid, ground: seq<Ground>, closed: seq<bool>, tiles: seq<Tile>, frontier: seq<Tile>,
                      start: Point, target: Point, current: int, k: int, heuristic: (Point, Point) -> real)
    requires Inv(g, ground, closed, tiles, frontier, start, target, current, k)
    requires 0 <= current < |tiles| && 0 <= k < 8
    requires var nb := Neighbour(tiles[current].coord, k);
      IsWalkableAt(g, ground, nb) && nb != target && !ClosedAt(g, ground, closed, nb)
    ensures var c := tiles[current].coord;
      var r := Explore(g, ground, closed, tiles, frontier, Neighbour(c, k), target, c, heuristic);
      && !r.0 && |r.1| == |tiles| && r.1[current] == tiles[current]
      && Inv(g, ground, closed, r.1, r.2, start, target, current, k + 1)
  {
    var c := tiles[current].coord;
    var nb := Neighbour(c, k);
    IndexInRange(g, nb);
    IndexInRange(g, c);
    var ni := g.Index(nb);
    var gValue := tiles[current].gScore + 1.0;
    var hValue := heuristic(nb, target);
    var t := Tile(gValue + hValue, gValue, hValue, nb, c);
    var r := Explore(g, ground, closed, tiles, frontier, nb, target, c, heuristic);
    if tiles[ni].fValue > t.fValue || tiles[ni].fValue == FLT_MAX {
      assert r == (false, tiles[ni := t], frontier + [t]);
      AddRecordKeepsInv(g, ground, closed, tiles, frontier, start, target, current, k, t);
    } else {
      assert r == (false, tiles, frontier);
      assert Settled(g, ground, closed, tiles, target, nb);
    }
  }

  /** Recording an unclosed, walkable, non-target neighbour of the expanded tile with
      that tile as parent keeps the invariant. */
  lemma AddRecordKeepsInv(g: Grid, ground: seq<Ground>, closed: seq<bool>, tiles: seq<Tile>, frontier: seq<Tile>,
                          start: Point, target: Point, current: int, k: int, t: Tile)
    requires Inv(g, ground, closed, tiles, frontier, start, target, current, k)
    requires 0 <= current < |tiles| && 0 <= k < 8
    requires t.coord == Neighbour(tiles[current].coord, k) && t.parent == tiles[current].coord
    requires t.gScore == tiles[current].gScore + 1.0
    requires IsWalkableAt(g, ground, t.coord) && t.coord != target && !ClosedAt(g, ground, closed, t.coord)
    ensures 0 <= g.Index(t.coord) < |tiles| && g.Index(t.coord) != current
    ensures Inv(g, ground, closed, tiles[g.Index(t.coord) := t], frontier + [t], start, target, current, k + 1)
  {
    var c := tiles[current].coord;
    var nb := t.coord;
    NeighbourIffAdjacent(c, nb);
    IndexInRange(g, start);
    IndexInRange(g, target);
    IndexInRange(g, nb);
    IndexInRange(g, c);
    IndexInjective(g, nb, target);
    IndexInjective(g, c, start);
    var ni := g.Index(nb);
    var tiles' := tiles[ni := t];
    var frontier' := frontier + [t];
    assert tiles[current].gScore >= 0.0 by {
      if current != g.Index(start) {
        assert RecordOk(g, ground, closed, tiles, current);
      }
    }
    assert RecordOk(g, ground, closed, tiles', ni);
    forall i | 0 <= i < |tiles| && i != g.Index(start) && i != ni && tiles'[i] != DefaultTile
      ensures RecordOk(g, ground, closed, tiles', i)
    {
      RecordOkFrame(g, ground, closed, tiles, closed, tiles', i);
    }
    forall i | 0 <= i < |tiles| && closed[i] && i != current
      ensures IsWalkableAt(g, ground, tiles'[i].coord) &&
              SettledUpTo(g, ground, closed, tiles', target, tiles'[i].coord, 8)
    {
      SettledFrame(g, ground, closed, tiles, closed, tiles', target, tiles[i].coord, 8);
    }
    SettledFrame(g, ground, closed, tiles, closed, tiles', target, c, k);
    forall j | 0 <= j < |frontier'|
      ensures IsWalkableAt(g, ground, frontier'[j].coord) &&
              (frontier'[j] == StartTile(start) || At(g, ground, tiles', frontier'[j].coord) != DefaultTile)
    {
      if j < |frontier| {
        assert frontier'[j] == frontier[j];
        IndexInRange(g, frontier[j].coord);
      }
    }
    forall i | 0 <= i < |tiles| && !closed[i] && tiles'[i] != DefaultTile
      ensures tiles'[i] in frontier'
    {
      if i != ni {
        assert tiles[i] in frontier;
      }
    }
  }

  // ---------------------------------------------------------------------------
  // Rebuilding the path

  /** How many parent links separate a tile from the start (one more for the target). */
  ghost function Rank(g: Grid, ground: seq<Ground>, tiles: seq<Tile>, start: Point, target: Point, tile: Point): int
    requires ParentTree(g, ground, tiles, start, target) && IsWalkableAt(g, ground, tile)
  {
    if tile == target then At(g, ground, tiles, At(g, ground, tiles, target).parent).gScore.Floor + 1
    else At(g, ground, tiles, tile).gScore.Floor
  }

  /** One parent link followed from the target or a linked tile that is not its own
      parent leads to an adjacent linked tile of smaller rank. */
  lemma ParentStep(g: Grid, ground: seq<Ground>, tiles: seq<Tile>, start: Point, target: Point, tile: Point)
    requires ParentTree(g, ground, tiles, start, target) && IsWalkableAt(g, ground, tile)
    requires tile == target || Linked(g, ground, tiles, start, target, tile)
    requires At(g, ground, tiles, tile).parent != tile
    ensures var next := At(g, ground, tiles, tile).parent;
      && Linked(g, ground, tiles, start, target, next) && Adjacent(next, tile)
      && 0 <= Rank(g, ground, tiles, start, target, next) < Rank(g, ground, tiles, start, target, tile)
  {
    IndexInRange(g, start);
    IndexInRange(g, target);
    IndexInRange(g, tile);
    IndexInjective(g, start, target);
    var i := g.Index(tile);
    var next := tiles[i].parent;
    if tile != target {
      IndexInjective(g, tile, start);
      IndexInjective(g, tile, target);
      IndexInjective(g, tile, tiles[i].coord);
      IndexInRange(g, next);
      if next != start {
        IndexInjective(g, next, start);
        IndexInjective(g, next, target);
      }
    } else {
      var p := next;
      IndexInRange(g, p);
      if p != start {
        IndexInjective(g, p, start);
        IndexInjective(g, p, target);
      }
    }
  }

  /** A linked tile other than the start has its own record. */
  lemma RecordCoord(g: Grid, ground: seq<Ground>, tiles: seq<Tile>, start: Point, target: Point, tile: Point)
    requires ParentTree(g, ground, tiles, start, target)
    requires Linked(g, ground, tiles, start, target, tile) && tile != start
    ensures At(g, ground, tiles, tile).coord == tile
    ensures Adjacent(At(g, ground, tiles, tile).parent, tile)
  {
    IndexInRange(g, start);
    IndexInRange(g, target);
    IndexInRange(g, tile);
    var i := g.Index(tile);
    IndexInjective(g, tile, start);
    IndexInjective(g, tile, target);
    IndexInjective(g, tile, tiles[i].coord);
  }

  /** The only linked tile that is its own parent is the start. */
  lemma ParentEnd(g: Grid, ground: seq<Ground>, tiles: seq<Tile>, start: Point, target: Point, tile: Point)
    requires ParentTree(g, ground, tiles, start, target) && IsWalkableAt(g, ground, tile)
    requires tile == target || Linked(g, ground, tiles, start, target, tile)
    requires At(g, ground, tiles, tile).parent == tile
    ensures tile == start
  {
    if tile != start && tile != target {
      RecordCoord(g, ground, tiles, start, target, tile);
    }
  }

  /** `World::GetPath`: from the target follow parent links, pushing each tile on a
      stack, until a tile is its own parent (the start); then pop the stack into the
      path. The result is a path from the start to the target. */
  method GetPath(g: Grid, ground: seq<Ground>, tiles: array<Tile>, start: Point, target: Point)
    returns (path: seq<Point>)
    requires ParentTree(g, ground, tiles[..], start, target)
    ensures IsPath(g, ground, start, path, target)
  {
    ghost var ts := tiles[..];
    IndexInRange(g, target);
    var stack: seq<Point> := [];
    var tile := target;
    while tile != tiles[g.Index(tile)].parent
      invariant IsWalkableAt(g, ground, tile) && 0 <= g.Index(tile) < tiles.Length
      invariant tile == target || Linked(g, ground, ts, start, target, tile)
      invariant stack == [] <==> tile == target
      invariant stack != [] ==> stack[0] == target && Adjacent(tile, stack[|stack| - 1])
      invariant forall j :: 0 <= j < |stack| - 1 ==> Adjacent(stack[j + 1], stack[j])
      invariant forall j :: 0 <= j < |stack| ==> IsWalkableAt(g, ground, stack[j])
      decreases Rank(g, ground, ts, start, target, tile)
    {
      ParentStep(g, ground, ts, start, target, tile);
      var next := tiles[g.Index(tile)].parent;
      IndexInRange(g, next);
      stack := stack + [tile];
      tile := next;
    }
    ParentEnd(g, ground, ts, start, target, tile);
    ghost var full := stack;
    path := [];
    while stack != []
      invariant |path| + |stack| == |full| && stack == full[..|stack|]
      invariant forall j :: 0 <= j < |path| ==> path[j] == full[|full| - 1 - j]
    {
      path := path + [stack[|stack| - 1]];
      stack := stack[..|stack| - 1];
    }
    forall k | 0 <= k < |path| - 1
      ensures Adjacent(path[k], path[k + 1])
    {
      var j := |full| - 2 - k;
      assert path[k] == full[j + 1] && path[k + 1] == full[j];
    }
  }

  // ---------------------------------------------------------------------------
  // The search

  /** Every path out of the start passes only closed tiles once the queue is empty
      and so never reaches the target, which is never closed. */
  lemma NoPathOut(g: Grid, ground: seq<Ground>, closed: seq<bool>, tiles: seq<Tile>, start: Point, target: Point)
    requires Inv(g, ground, closed, tiles, [], start, target, -1, 0)
    ensures forall p :: !IsPath(g, ground, start, p, target)
  {
    IndexInRange(g, start);
    assert ClosedAt(g, ground, closed, start) by {
      assert tiles[g.Index(start)] != DefaultTile;
    }
    forall p | IsPath(g, ground, start, p, target)
      ensures false
    {
      var j := 0;
      StepClosed(g, ground, closed, tiles, start, target, start, p[0]);
      while j < |p| - 1
        invariant 0 <= j < |p| && ClosedAt(g, ground, closed, p[j]) && p[j] != target
      {
        StepClosed(g, ground, closed, tiles, start, target, p[j], p[j + 1]);
        j := j + 1;
      }
    }
  }

  lemma StepClosed(g: Grid, ground: seq<Ground>, closed: seq<bool>, tiles: seq<Tile>, start: Point, target: Point,
                   c: Point, nb: Point)
    requires Inv(g, ground, closed, tiles, [], start, target, -1, 0)
    requires IsWalkableAt(g, ground, c) && ClosedAt(g, ground, closed, c)
    requires Adjacent(c, nb) && IsWalkableAt(g, ground, nb)
    ensures ClosedAt(g, ground, closed, nb) && nb != target
  {
    IndexInRange(g, c);
    IndexInRange(g, nb);
    var i := g.Index(c);
    ClosedCoord(g, ground, closed, tiles, [], start, target, -1, 0, i);
    IndexInjective(g, c, tiles[i].coord);
    NeighbourIffAdjacent(c, nb);
    var k :| 0 <= k < 8 && nb == Neighbour(c, k);
    assert Settled(g, ground, closed, tiles, target, Neighbour(c, k));
  }

  /** A path ends on its target, so there is none to an unwalkable target. */
  lemma NoPathToUnwalkable(g: Grid, ground: seq<Ground>, start: Point, target: Point)
    requires |ground| == g.Count() && !IsWalkableAt(g, ground, target)
    ensures forall p :: !IsPath(g, ground, start, p, target)
  {
  }

  /** The state the search starts from: nothing closed, only the start recorded and
      queued. */
  lemma InitialInv(g: Grid, ground: seq<Ground>, start: Point, target: Point)
    requires |ground| == g.Count()
    requires IsWalkableAt(g, ground, start) && IsWalkableAt(g, ground, target) && start != target
    ensures 0 <= g.Index(start) < |ground|
    ensures Inv(g, ground, seq(|ground|, _ => false), seq(|ground|, _ => DefaultTile)[g.Index(start) := StartTile(start)],
          [StartTile(start)], start, target, -1, 0)
  {
    IndexInRange(g, start);
    IndexInRange(g, target);
    IndexInjective(g, start, target);
  }

  /** The inner loop of `World::AStarPathFinding`: explore the eight neighbours of the
      tile just closed; on reaching the target rebuild the path. */
  method ExpandTile(g: Grid, ground: seq<Ground>, closed: array<bool>, tiles: array<Tile>, frontier: seq<Tile>,
                    start: Point, target: Point, ci: int, heuristic: (Point, Point) -> real)
    returns (found: bool, frontier': seq<Tile>, path: seq<Point>)
    requires closed.Length == tiles.Length == |ground|
    requires Inv(g, ground, closed[..], tiles[..], frontier, start, target, ci, 0) && 0 <= ci < tiles.Length
    modifies tiles
    ensures found ==> IsPath(g, ground, start, path, target)
    ensures !found ==> path == [] && Inv(g, ground, closed[..], tiles[..], frontier', start, target, -1, 0)
  {
    var coord := tiles[ci].coord;
    var neighbours := g.CalculateNeighbouringTiles(g.TileToPosition(coord));
    NeighboursOfTilePosition(g, coord);
    frontier' := frontier;
    for k := 0 to 8
      invariant Inv(g, ground, closed[..], tiles[..], frontier', start, target, ci, k)
      invariant tiles[ci].coord == coord
    {
      ExploreStep(g, ground, closed[..], tiles[..], frontier', start, target, ci, k, heuristic);
      found, frontier' := ExploreNeighbours(g, ground, closed, tiles, frontier', neighbours[k], target,
                                            coord, heuristic);
      if found {
        path := GetPath(g, ground, tiles, start, target);
        return;
      }
    }
    found, path := false, [];
  }

  /** `World::AStarPathFinding`. An unwalkable start or target fails with an empty
      path; a walkable start equal to the target succeeds with an empty path;
      otherwise the search either returns a path from the start to the target or
      fails with an empty path, and it fails only when no such path exists. */
  method AStarPathFinding(g: Grid, ground: seq<Ground>, start: Point, target: Point,
                          heuristic: (Point, Point) -> real)
    returns (found: bool, path: seq<Point>)
    requires |ground| == g.Count()
    ensures !IsWalkableAt(g, ground, start) || !IsWalkableAt(g, ground, target) ==> !found && path == []
    ensures IsWalkableAt(g, ground, start) && start == target ==> found && path == []
    ensures found && start != target ==> IsPath(g, ground, start, path, target)
    ensures !found ==> path == [] && (IsWalkableAt(g, ground, start) ==> forall p :: !IsPath(g, ground, start, p, target))
  {
    path := [];
    if !IsWalkableAt(g, ground, start) || !IsWalkableAt(g, ground, target) {
      if !IsWalkableAt(g, ground, target) {
        NoPathToUnwalkable(g, ground, start, target);
      }
      return false, path;
    }
    if start == target {
      return true, path;
    }
    found, path := Search(g, ground, start, target, heuristic);
  }

  /** The search loop of `AStarPathFinding`, between a walkable start and a
      different walkable target: it finds a path exactly when one exists. */
  method Search(g: Grid, ground: seq<Ground>, start: Point, target: Point, heuristic: (Point, Point) -> real)
    returns (found: bool, path: seq<Point>)
    requires |ground| == g.Count()
    requires IsWalkableAt(g, ground, start) && IsWalkableAt(g, ground, target) && start != target
    ensures found ==> IsPath(g, ground, start, path, target)
    ensures !found ==> path == [] && forall p :: !IsPath(g, ground, start, p, target)
  {
    path := [];
    IndexInRange(g, start);
    IndexInRange(g, target);
    IndexInjective(g, start, target);
    var closed := new bool[|ground|](_ => false);
    var tiles := new Tile[|ground|](_ => DefaultTile);
    tiles[g.Index(start)] := StartTile(start);
    var frontier := [tiles[g.Index(start)]];
    assert closed[..] == seq(|ground|, _ => false);
    assert tiles[..] == seq(|ground|, _ => DefaultTile)[g.Index(start) := StartTile(start)];
    InitialInv(g, ground, start, target);
    while frontier != []
      invariant closed.Length == tiles.Length == |ground|
      invariant Inv(g, ground, closed[..], tiles[..], frontier, start, target, -1, 0)
      invariant path == []
      decreases CountFalse(closed[..]), |frontier|
    {
      found, frontier, path := VisitNext(g, ground, closed, tiles, frontier, start, target, heuristic);
      if found {
        return;
      }
    }
    NoPathOut(g, ground, closed[..], tiles[..], start, target);
    found := false;
  }

  /** One turn of the search loop: pop the least tile, skip it when already
      searched, otherwise mark it searched and explore its neighbours. Without a
      path found, either one more tile is searched or the frontier shrank. */
  method VisitNext(g: Grid, ground: seq<Ground>, closed: array<bool>, tiles: array<Tile>, frontier: seq<Tile>,
                   start: Point, target: Point, heuristic: (Point, Point) -> real)
    returns (found: bool, frontier': seq<Tile>, path: seq<Point>)
    requires closed.Length == tiles.Length == |ground| && frontier != []
    requires Inv(g, ground, closed[..], tiles[..], frontier, start, target, -1, 0)
    modifies closed, tiles
    ensures found ==> IsPath(g, ground, start, path, target)
    ensures !found ==> path == [] && Inv(g, ground, closed[..], tiles[..], frontier', start, target, -1, 0)
    ensures !found ==> CountFalse(closed[..]) < old(CountFalse(closed[..]))
                       || (closed[..] == old(closed[..]) && |frontier'| < |frontier|)
  {
    var m := PopMin(frontier);
    var current := frontier[m];
    frontier' := frontier[..m] + frontier[m + 1..];
    IndexInRange(g, current.coord);
    var ci := g.Index(current.coord);
    if closed[ci] {
      SkipKeepsInv(g, ground, closed[..], tiles[..], frontier, start, target, m);
      return false, frontier', [];
    }
    CloseKeepsInv(g, ground, closed[..], tiles[..], frontier, start, target, m);
    CountFalseSet(closed[..], ci);
    ghost var before := closed[..];
    closed[ci] := true;
    assert closed[..] == before[ci := true];
    found, frontier', path := ExpandTile(g, ground, closed, tiles, frontier', start, target, ci, heuristic);
  }

  /** What a search leaves in an agent's path: a path from `start` to `target`, or
      nothing when no path is reported (an unwalkable start or target, the start on
      the target, or no path at all). */
  ghost predicate SearchResult(g: Grid, ground: seq<Ground>, start: Point, target: Point, path: seq<Point>)
    requires |ground| == g.Count()
  {
    || IsPath(g, ground, start, path, target)
    || (&& path == []
        && (|| !IsWalkableAt(g, ground, start) || !IsWalkableAt(g, ground, target) || start == target
            || forall p :: !IsPath(g, ground, start, p, target)))
  }

  /** A path an agent's Sense may leave behind: the one it had, or one the search
      reported from `start`, which is empty or a path to its own last tile. */
  ghost predicate SensedPath(g: Grid, ground: seq<Ground>, start: Point, before: seq<Point>, path: seq<Point>)
    requires |ground| == g.Count()
  {
    path == before || path == [] || IsPath(g, ground, start, path, path[|path| - 1])
  }

  lemma SearchResultIsSensed(g: Grid, ground: seq<Ground>, start: Point, target: Point,
                             before: seq<Point>, path: seq<Point>)
    requires |ground| == g.Count() && SearchResult(g, ground, start, target, path)
    ensures SensedPath(g, ground, start, before, path)
  {
  }
}
