/** `sim::Herder`: the player-steered herder, its stun controller and its path
    following. Its `Update`, which needs the world for path finding, is in
    HerderBehaviour. */
module HerderAgent {
  import opened Geometry
  import opened TileGrid
  import opened Timers

  const WALKING_SPEED: real := 70.0
  const STUN_TIME_ATTACKED: real := 4.0

  datatype Herder = Herder(
    path: seq<Point>,
    position: Vector2,
    direction: Vector2,
    targetPosition: Vector2,
    origin: Vector2,
    targetCoord: Point,
    radius: real,
    velocity: real,
    timeSinceAttack: real,
    flipX: bool,
    isAttacked: bool)

  /** A default-constructed herder. */
  const DefaultHerder: Herder :=
    Herder([], Zero, Zero, Zero, Zero, NoTile, 0.0, WALKING_SPEED, 0.0, false, false)

  /** `Herder::Init` on a default-constructed herder: radius 25, standing on the
      corner of tile (21, 21), not stunned and without a target. */
  function Init(g: Grid): (h: Herder)
    ensures h.radius == 25.0 && g.PositionToTile(h.position) == Point(21, 21)
    ensures !h.isAttacked && h.timeSinceAttack == 0.0 && h.targetCoord == NoTile && h.path == []
  {
    TileRoundTrip(g, Point(21, 21));
    DefaultHerder.(radius := 25.0, origin := Vector2(16.0, 10.25), position := g.TileToPosition(Point(21, 21)))
  }

  /** The stun controller at the start of `Herder::Update`: the clock runs only while
      attacked, and reaching STUN_TIME_ATTACKED lifts the stun and clears the clock. */
  function Stun(h: Herder, dt: real): (r: Herder)
    ensures var t := if h.isAttacked then h.timeSinceAttack + dt else h.timeSinceAttack;
      && (t >= STUN_TIME_ATTACKED ==> !r.isAttacked && r.timeSinceAttack == 0.0)
      && (t < STUN_TIME_ATTACKED ==> r.isAttacked == h.isAttacked && r.timeSinceAttack == t)
    ensures r == h.(isAttacked := r.isAttacked, timeSinceAttack := r.timeSinceAttack)
  {
    var clock := if h.isAttacked then h.timeSinceAttack + dt else h.timeSinceAttack;
    if clock >= STUN_TIME_ATTACKED then h.(isAttacked := false, timeSinceAttack := 0.0)
    else h.(timeSinceAttack := clock)
  }

  /** An attack stuns until the clock reaches STUN_TIME_ATTACKED: from a clock below
      it, the herder stays stunned while the clock plus the steps stays below it, and
      is free once they reach it. */
  lemma {:induction false} StunLasts(h: Herder, dts: seq<real>)
    requires h.isAttacked && 0.0 <= h.timeSinceAttack < STUN_TIME_ATTACKED
    requires forall k :: 0 <= k < |dts| ==> dts[k] >= 0.0
    ensures h.timeSinceAttack + Sum(dts) < STUN_TIME_ATTACKED ==>
      StunMany(h, dts).isAttacked && StunMany(h, dts).timeSinceAttack == h.timeSinceAttack + Sum(dts)
    ensures h.timeSinceAttack + Sum(dts) >= STUN_TIME_ATTACKED ==> !StunMany(h, dts).isAttacked
    decreases |dts|
  {
    if dts != [] {
      SumNonNegative(dts[1..]);
      var h1 := Stun(h, dts[0]);
      if h.timeSinceAttack + dts[0] >= STUN_TIME_ATTACKED {
        FreeStaysFree(h1, dts[1..]);
      } else {
        StunLasts(h1, dts[1..]);
      }
    }
  }

  /** An unattacked herder with a clean clock is never stunned by the controller. */
  lemma {:induction false} FreeStaysFree(h: Herder, dts: seq<real>)
    requires !h.isAttacked && h.timeSinceAttack == 0.0
    ensures !StunMany(h, dts).isAttacked && StunMany(h, dts).timeSinceAttack == 0.0
    decreases |dts|
  {
    if dts != [] {
      FreeStaysFree(Stun(h, dts[0]), dts[1..]);
    }
  }

  lemma {:induction false} SumNonNegative(dts: seq<real>)
    requires forall k :: 0 <= k < |dts| ==> dts[k] >= 0.0
    ensures Sum(dts) >= 0.0
    decreases |dts|
  {
    if dts != [] {
      SumNonNegative(dts[1..]);
    }
  }

  function StunMany(h: Herder, dts: seq<real>): Herder
    decreases |dts|
  {
    if dts == [] then h else StunMany(Stun(h, dts[0]), dts[1..])
  }


  /** `Herder::SetTargetPosition`. */
  function SetTargetPosition(h: Herder, p: Vector2, normalize: Vector2 -> Vector2): (r: Herder)
    ensures r.targetPosition == p && r.direction == normalize(p.Sub(h.position))
    ensures r == h.(targetPosition := p, direction := r.direction)
  {
    h.(targetPosition := p, direction := normalize(p.Sub(h.position)))
  }

  /** `Herder::TraverseUsingPath` on the herder's own path. */
  function TraverseUsingPath(h: Herder, g: Grid, normalize: Vector2 -> Vector2): (r: Herder)
    ensures h.path == [] ==> r == h
    ensures h.path != [] ==> r.path == h.path || r.path == h.path[1..]
    ensures h.path != [] ==> r.targetPosition == g.TileToPosition(h.path[0]).Add(Vector2(16.0, 16.0))
    ensures r == h.(path := r.path, targetPosition := r.targetPosition, direction := r.direction)
  {
    if h.path == [] then h
    else
      var aimed := SetTargetPosition(h, g.TileToPosition(h.path[0]).Add(Vector2(16.0, 16.0)), normalize);
      if CloserThan(h.position, g.TileToPosition(h.path[0]), h.radius) then aimed.(path := h.path[1..])
      else aimed
  }
}
