/** `sim::Wolf`: the wolf's own data and the members that only touch the wolf
    itself. Members that reach into the world (hunting, eating a sheep, attacking the
    herder, path finding) are in WolfBehaviour. */
module WolfAgent {
  import opened Geometry
  import opened TileGrid
  import opened Timers

  datatype State = Hungry | Satiated | Asleep

  const WALKING_SPEED: real := 50.0
  const RUNNING_SPEED: real := 75.0
  const MAX_HUNTING_DISTANCE: real := 200.0
  const MAX_WANDERING_DISTANCE: real := 300.0
  const SLEEP_TIME: real := 10.0
  const DELAY_BETWEEN_EATING: real := 3.0
  const AMOUNT_SHEEP_SATIATED: int := 3

  datatype Wolf = Wolf(
    path: seq<Point>,
    state: State,
    position: Vector2,
    wolfsDenPosition: Vector2,
    sleepingPosition: Vector2,
    direction: Vector2,
    targetPosition: Vector2,
    origin: Vector2,
    randomTargetTile: Point,
    radius: real,
    velocity: real,
    timeBetweenEating: real,
    timeAsleep: real,
    flipX: bool,
    hasATarget: bool,
    amountSheepEaten: int,
    sheepToHunt: int,
    senseTimer: Timer,
    thinkTimer: Timer)

  /** A default-constructed wolf. */
  const DefaultWolf: Wolf := Wolf([], Hungry, Zero, Zero, Zero, Zero, Zero, Zero, NoTile,
    0.0, WALKING_SPEED, 0.0, 0.0, false, false, 0, -1, DefaultTimer, DefaultTimer)

  /** `Wolf::Spawn` on a default-constructed wolf: a Hungry wolf of radius 19 in front
      of its den at (160, 160), ready to hunt at once, sensing every 0.5 s and
      thinking every 0.25 s. Its sleeping spot lies right of the den's corner by the
      sprite's width (33) and below it by half the den's height (41) plus half the
      sprite's height (28). */
  function Spawn(): (w: Wolf)
    ensures w.state == Hungry && w.position == Vector2(192.0, 210.0) && w.radius == 19.0
    ensures w.wolfsDenPosition == Vector2(160.0, 160.0)
    ensures w.sleepingPosition == Vector2(160.0 + 33.0, 160.0 + 41.0 / 2.0 + 0.5 * 28.0)
    ensures w.timeBetweenEating == DELAY_BETWEEN_EATING && w.amountSheepEaten == 0 && w.timeAsleep == 0.0
    ensures !w.hasATarget && w.sheepToHunt == -1 && w.randomTargetTile == NoTile && w.path == []
    ensures w.senseTimer == Timer(0.0, 0.5) && w.thinkTimer == Timer(0.0, 0.25)
  {
    DefaultWolf.(position := Vector2(192.0, 210.0), wolfsDenPosition := Vector2(160.0, 160.0),
                 radius := 19.0, origin := Vector2(16.5, 14.0),
                 sleepingPosition := Vector2(193.0, 194.5),
                 timeBetweenEating := DELAY_BETWEEN_EATING,
                 senseTimer := Timer(0.0, 0.5), thinkTimer := Timer(0.0, 0.25))
  }

  /** `Wolf::SetTargetPosition`: aim at `p` and remember that there is a target. */
  function SetTargetPosition(w: Wolf, p: Vector2, normalize: Vector2 -> Vector2): (r: Wolf)
    ensures r.targetPosition == p && r.hasATarget && r.direction == normalize(p.Sub(w.position))
    ensures r == w.(targetPosition := p, hasATarget := true, direction := r.direction)
  {
    w.(targetPosition := p, hasATarget := true, direction := normalize(p.Sub(w.position)))
  }

  /** `Wolf::TraverseUsingPath` on the wolf's own path. */
  function TraverseUsingPath(w: Wolf, g: Grid, normalize: Vector2 -> Vector2): (r: Wolf)
    ensures w.path == [] ==> r == w
    ensures w.path != [] ==> r.path == w.path || r.path == w.path[1..]
    ensures w.path != [] ==> r.targetPosition == g.TileToPosition(w.path[0]).Add(Vector2(16.0, 16.0))
    ensures r == w.(path := r.path, targetPosition := r.targetPosition, direction := r.direction,
                    hasATarget := r.hasATarget)
  {
    if w.path == [] then w
    else
      var aimed := SetTargetPosition(w, g.TileToPosition(w.path[0]).Add(Vector2(16.0, 16.0)), normalize);
      if CloserThan(w.position, g.TileToPosition(w.path[0]), w.radius) then aimed.(path := w.path[1..])
      else aimed
  }

  /** `Wolf::Wander`: follow the path only while the target tile is on the grid. */
  function Wander(w: Wolf, g: Grid, normalize: Vector2 -> Vector2): (r: Wolf)
    ensures !g.IsValidCoord(w.randomTargetTile) ==> r == w
    ensures g.IsValidCoord(w.randomTargetTile) ==> r == TraverseUsingPath(w, g, normalize)
  {
    if w.path == [] || !g.IsValidCoord(w.randomTargetTile) then w
    else TraverseUsingPath(w, g, normalize)
  }

  /** `Wolf::GoToDen`: follow the path (to the den). */
  function GoToDen(w: Wolf, g: Grid, normalize: Vector2 -> Vector2): (r: Wolf)
    ensures r.state == w.state && r.velocity == w.velocity
    ensures r == TraverseUsingPath(w, g, normalize)
  {
    TraverseUsingPath(w, g, normalize)
  }

  /** The wolf's own part of `Wolf::EatSheep`: one more sheep eaten, the meal clock
      restarts, the hunt ends, and the third sheep makes the wolf Satiated. */
  function EatSheep(w: Wolf): (r: Wolf)
    ensures r.amountSheepEaten == w.amountSheepEaten + 1 && r.timeBetweenEating == 0.0
    ensures r.sheepToHunt == -1 && !r.hasATarget && r.velocity == WALKING_SPEED
    ensures r.state == (if r.amountSheepEaten >= AMOUNT_SHEEP_SATIATED then Satiated else w.state)
    ensures r == w.(amountSheepEaten := r.amountSheepEaten, timeBetweenEating := 0.0, sheepToHunt := -1,
                    hasATarget := false, velocity := WALKING_SPEED, state := r.state)
  {
    var fed := w.(velocity := WALKING_SPEED, timeBetweenEating := 0.0,
                  amountSheepEaten := w.amountSheepEaten + 1, hasATarget := false, sheepToHunt := -1);
    if fed.amountSheepEaten >= AMOUNT_SHEEP_SATIATED then fed.(state := Satiated) else fed
  }

  /** A freshly woken wolf (none eaten) stays Hungry after its first two sheep and
      becomes Satiated with the third. */
  lemma {:induction false} ThirdSheepSatiates(w: Wolf)
    requires w.state == Hungry && w.amountSheepEaten == 0
    ensures EatSheep(w).state == Hungry && EatSheep(EatSheep(w)).state == Hungry
    ensures EatSheep(EatSheep(EatSheep(w))).state == Satiated
  {
    assert EatSheep(w).amountSheepEaten == 1;
    assert EatSheep(EatSheep(w)).amountSheepEaten == 2;
  }

  /** `Wolf::Sleep`. */
  function Sleep(w: Wolf): (r: Wolf)
    ensures r.state == Asleep && r == w.(state := Asleep)
  {
    w.(state := Asleep)
  }

  /** The wolf's own part of `Wolf::AttackHerder`: the hunt ends and the wolf is
      Satiated, however many sheep it has eaten. */
  function AttackHerder(w: Wolf): (r: Wolf)
    ensures r.state == Satiated && r.amountSheepEaten == w.amountSheepEaten
    ensures r.timeBetweenEating == 0.0 && r.sheepToHunt == -1 && !r.hasATarget
    ensures r == w.(velocity := WALKING_SPEED, timeBetweenEating := 0.0, hasATarget := false,
                    sheepToHunt := -1, state := Satiated)
  {
    w.(velocity := WALKING_SPEED, timeBetweenEating := 0.0, hasATarget := false,
       sheepToHunt := -1, state := Satiated)
  }

  /** The Asleep case of `Wolf::Think`: after SLEEP_TIME seconds asleep the wolf wakes
      Hungry, with its sleep clock and its meal count at zero. */
  function ThinkAsleep(w: Wolf): (r: Wolf)
    ensures w.timeAsleep >= SLEEP_TIME ==>
      r.state == Hungry && r.timeAsleep == 0.0 && r.amountSheepEaten == 0 && !r.hasATarget
    ensures w.timeAsleep < SLEEP_TIME ==> r == w
    ensures r == w.(state := r.state, timeAsleep := r.timeAsleep, amountSheepEaten := r.amountSheepEaten,
                    hasATarget := r.hasATarget)
  {
    if w.timeAsleep >= SLEEP_TIME then
      w.(timeAsleep := 0.0, amountSheepEaten := 0, hasATarget := false, state := Hungry)
    else w
  }

  /** `Wolf::Act`: asleep, only the sleep clock runs; Hungry, the meal clock runs and
      the wolf moves; Satiated, it moves and no clock runs. */
  function Act(w: Wolf, dt: real): (r: Wolf)
    ensures w.state == Asleep ==> r == w.(timeAsleep := w.timeAsleep + dt)
    ensures w.state != Asleep ==>
      r.position == w.position.Add(w.direction.Scale(w.velocity * dt)) && r.flipX == (w.direction.x > 0.0)
      && r.timeAsleep == w.timeAsleep
    ensures w.state == Hungry ==> r.timeBetweenEating == w.timeBetweenEating + dt
    ensures w.state != Hungry ==> r.timeBetweenEating == w.timeBetweenEating
    ensures r == w.(position := r.position, flipX := r.flipX, timeAsleep := r.timeAsleep,
                    timeBetweenEating := r.timeBetweenEating)
  {
    var moved := w.(position := w.position.Add(w.direction.Scale(w.velocity * dt)),
                    flipX := w.direction.x > 0.0);
    match w.state
    case Hungry => moved.(timeBetweenEating := w.timeBetweenEating + dt)
    case Satiated => moved
    case Asleep => w.(timeAsleep := w.timeAsleep + dt)
  }

  /** Act alone never moves or wakes an asleep wolf, and its sleep clock grows by the
      sum of the steps; only ThinkAsleep wakes it. */
  lemma {:induction false} SleepLasts(w: Wolf, dts: seq<real>)
    requires w.state == Asleep
    ensures ActMany(w, dts).state == Asleep
    ensures ActMany(w, dts).position == w.position
    ensures ActMany(w, dts).timeAsleep == w.timeAsleep + Sum(dts)
    decreases |dts|
  {
    if dts != [] {
      SleepLasts(Act(w, dts[0]), dts[1..]);
    }
  }

  function ActMany(w: Wolf, dts: seq<real>): Wolf
    decreases |dts|
  {
    if dts == [] then w else ActMany(Act(w, dts[0]), dts[1..])
  }

  /** The target-reached test of `Wolf::Sense`, as for the sheep. */
  predicate HasReachedTile(w: Wolf, g: Grid)
  {
    var t := w.randomTargetTile;
    if t.x == 0 || t.y == 0 || t.x == g.size.x || t.y == g.size.y then
      CloserThan(w.position, g.TileToPosition(t), 2.0 * w.radius)
    else CloserThan(w.position, g.TileToPosition(t), w.radius)
  }

  /** The flee box of the Hungry case of `Wolf::Sense` when the herder is near. The
      box is meant to point away from another agent but is computed from the wolf's
      own position (`world->wolf.m_position`), so both tests fail and the box is
      always the square of side MAX_HUNTING_DISTANCE up and to the left of the wolf. */
  function HerderFleeBox(w: Wolf, other: Vector2): (b: (Vector2, Vector2))
    ensures other.x < w.position.x ==> b.0.x == w.position.x && b.1.x == w.position.x + MAX_HUNTING_DISTANCE
    ensures other.x >= w.position.x ==> b.0.x == w.position.x - MAX_HUNTING_DISTANCE && b.1.x == w.position.x
    ensures other.y < w.position.y ==> b.0.y == w.position.y && b.1.y == w.position.y + MAX_HUNTING_DISTANCE
    ensures other.y >= w.position.y ==> b.0.y == w.position.y - MAX_HUNTING_DISTANCE && b.1.y == other.y
  {
    var lo := Vector2(w.position.x - MAX_HUNTING_DISTANCE, w.position.y - MAX_HUNTING_DISTANCE);
    var hi := Vector2(w.position.x + MAX_HUNTING_DISTANCE, w.position.y + MAX_HUNTING_DISTANCE);
    var lo1 := if other.x < w.position.x then lo.(x := w.position.x) else lo;
    var hi1 := if other.x < w.position.x then hi else hi.(x := w.position.x);
    var lo2 := if other.y < w.position.y then lo1.(y := w.position.y) else lo1;
    var hi2 := if other.y < w.position.y then hi1 else hi1.(y := other.y);
    (lo2, hi2)
  }

  /** With the wolf's own position as the "other" position, the flee box is the
      up-left square: the wolf never flees right or down. */
  lemma HerderFleeBoxIsUpLeft(w: Wolf)
    ensures HerderFleeBox(w, w.position) ==
      (Vector2(w.position.x - MAX_HUNTING_DISTANCE, w.position.y - MAX_HUNTING_DISTANCE), w.position)
  {
  }

}
