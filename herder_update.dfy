/** `sim::Herder::Update`, which needs the world for its path search: the stun
    controller, the mouse target, the path search to the target tile and the walk
    along the path. The mouse button and the mouse position are parameters. */
module HerderBehaviour {
  import opened Geometry
  import opened TileGrid
  import opened GroundLayer
  import opened PathFinding
  import opened WorldModel
  import H = HerderAgent

  /** Whether the herder stands within its radius of its target tile's corner. */
  predicate HasReachedDestination(h: H.Herder, g: Grid)
  {
    CloserThan(h.position, g.TileToPosition(h.targetCoord), h.radius)
  }

  /** The end of `Herder::Update`: follow the path, then step along the direction
      unless the target tile is off the grid or already reached. */
  function Steer(h: H.Herder, g: Grid, normalize: Vector2 -> Vector2, dt: real): H.Herder
  {
    var aimed := H.TraverseUsingPath(h, g, normalize);
    if g.IsValidCoord(aimed.targetCoord) && !HasReachedDestination(aimed, g) then
      aimed.(position := aimed.position.Add(aimed.direction.Scale(aimed.velocity * dt)),
             flipX := aimed.direction.x > 0.0)
    else aimed
  }

  /** A step of Steer moves the herder by velocity * dt along its (new) direction
      exactly when the target tile is on the grid and not yet reached; otherwise it
      stays where it is. The path only loses its first tile, and the stun, the
      target tile and the speed are untouched. */
  lemma SteerEffect(h: H.Herder, g: Grid, normalize: Vector2 -> Vector2, dt: real)
    ensures var r := Steer(h, g, normalize, dt);
      && (g.IsValidCoord(h.targetCoord) && !HasReachedDestination(h, g) ==>
            r.position == h.position.Add(r.direction.Scale(h.velocity * dt)) && r.flipX == (r.direction.x > 0.0))
      && (!g.IsValidCoord(h.targetCoord) || HasReachedDestination(h, g) ==>
            r.position == h.position && r.flipX == h.flipX)
      && (r.path == h.path || (h.path != [] && r.path == h.path[1..]))
      && r == h.(position := r.position, flipX := r.flipX, path := r.path,
                 targetPosition := r.targetPosition, direction := r.direction)
  {
    var aimed := H.TraverseUsingPath(h, g, normalize);
    assert aimed.position == h.position && aimed.targetCoord == h.targetCoord;
  }

  /** Steer applied once per step. */
  function SteerMany(h: H.Herder, g: Grid, normalize: Vector2 -> Vector2, dts: seq<real>): H.Herder
    decreases |dts|
  {
    if dts == [] then h else SteerMany(Steer(h, g, normalize, dts[0]), g, normalize, dts[1..])
  }

  /** A herder whose target tile is off the grid (the initial `(-1, -1)`, or a click
      outside the grid) never moves, however many steps it takes and whatever path
      it holds. */
  lemma {:induction false} NoTargetNoMove(h: H.Herder, g: Grid, normalize: Vector2 -> Vector2, dts: seq<real>)
    requires !g.IsValidCoord(h.targetCoord)
    ensures var r := SteerMany(h, g, normalize, dts);
      r.position == h.position && r.targetCoord == h.targetCoord && r.flipX == h.flipX
    decreases |dts|
  {
    if dts != [] {
      SteerEffect(h, g, normalize, dts[0]);
      NoTargetNoMove(Steer(h, g, normalize, dts[0]), g, normalize, dts[1..]);
    }
  }

  /** A herder that stands on its target tile's corner and has no path left stays
      there for good. */
  lemma {:induction false} ArrivedStays(h: H.Herder, g: Grid, normalize: Vector2 -> Vector2, dts: seq<real>)
    requires h.path == [] && HasReachedDestination(h, g)
    ensures SteerMany(h, g, normalize, dts) == h
    decreases |dts|
  {
    if dts != [] {
      SteerEffect(h, g, normalize, dts[0]);
      ArrivedStays(Steer(h, g, normalize, dts[0]), g, normalize, dts[1..]);
    }
  }

  /** The target tile after the mouse test: the tile under the mouse while the left
      button is held, the old one otherwise. */
  function TargetAfterClick(h: H.Herder, g: Grid, mouseDown: bool, mouse: Vector2): Point
  {
    if mouseDown then g.PositionToTile(mouse) else h.targetCoord
  }

  /** `Herder::Update` on values, from herder `h` to herder `r`. The stun controller
      runs first; a herder still stunned does nothing else. A free herder takes the
      clicked tile as its target, searches a path to it from its own tile when that
      tile is on the grid (the search result is `searched`), and then steers. */
  ghost predicate Updated(h: H.Herder, g: Grid, ground: seq<Ground>, normalize: Vector2 -> Vector2, dt: real,
                          mouseDown: bool, mouse: Vector2, searched: seq<Point>, r: H.Herder)
    requires |ground| == g.Count()
  {
    var stunned := H.Stun(h, dt);
    var t := TargetAfterClick(stunned, g, mouseDown, mouse);
    var start := g.PositionToTile(stunned.position);
    && (stunned.isAttacked ==> r == stunned)
    && (!stunned.isAttacked ==>
          && r == Steer(stunned.(targetCoord := t, path := searched), g, normalize, dt)
          && (g.IsValidCoord(t) ==> SearchResult(g, ground, start, t, searched))
          && (!g.IsValidCoord(t) ==> searched == stunned.path))
  }

  /** `Herder::Update` on the world: the herder moves as Updated says, with the
      search result `searched`, and nothing but the herder changes. */
  method Update(w: World, dt: real, mouseDown: bool, mouse: Vector2) returns (ghost searched: seq<Point>)
    requires w.Valid()
    modifies w
    ensures Updated(old(w.herder), w.grid, w.ground[..], w.normalize, dt, mouseDown, mouse, searched, w.herder)
    ensures w.sheep == old(w.sheep) && w.wolf == old(w.wolf) && w.running == old(w.running)
  {
    w.herder := H.Stun(w.herder, dt);
    searched := w.herder.path;
    if w.herder.isAttacked {
      return;
    }
    if mouseDown {
      w.herder := w.herder.(targetCoord := w.grid.PositionToTile(mouse));
    }
    if w.grid.IsValidCoord(w.herder.targetCoord) {
      var found, path := AStarPathFinding(w.grid, w.ground[..], w.grid.PositionToTile(w.herder.position),
                                          w.herder.targetCoord, w.heuristic);
      w.herder := w.herder.(path := path);
      searched := path;
    }
    w.herder := Steer(w.herder, w.grid, w.normalize, dt);
  }
}
