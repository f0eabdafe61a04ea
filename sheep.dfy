/** `sim::Sheep`: the sheep's own data and the members that only touch the sheep
    itself. Members that reach into the world (eating the grass cell, dropping
    manure, resetting a mate, spawning a lamb, path finding) are in SheepBehaviour. */
module SheepAgent {
  import opened Geometry
  import opened TileGrid
  import opened Timers

  datatype State = Hungry | Satiated | Reproducing | Afraid

  const WALKING_SPEED: real := 50.0
  const RUNNING_SPEED: real := 70.0
  const MAX_HEALTH: real := 10.0
  const AMOUNT_GRASS_SATIATED: real := 3.0
  const DELAY_DEFECATING: real := 3.0
  const DELAY_EATING: real := 2.0
  const TIME_BEFORE_DAMAGE: real := 5.0
  const HEALTH_REGENERATION: real := 2.0
  const GRASS_HUNTING_RANGE: real := 150.0
  const FLEEING_RANGE: real := 300.0
  /** Time since the last meal after which Think reacts (sprite change, reproduction,
      damage). */
  const EATING_GRACE: real := 0.3

  datatype Sheep = Sheep(
    path: seq<Point>,
    state: State,
    position: Vector2,
    targetPosition: Vector2,
    direction: Vector2,
    origin: Vector2,
    randomTargetTile: Point,
    radius: real,
    age: real,
    health: real,
    amountGrassEaten: real,
    timeSatiated: real,
    timeBetweenEating: real,
    velocity: real,
    flipX: bool,
    isAlive: bool,
    canReproduce: bool,
    isBeingHunted: bool,
    isMatedWith: bool,
    sheepToMate: int,
    senseTimer: Timer,
    thinkTimer: Timer)

  /** A default-constructed sheep. */
  const DefaultSheep: Sheep := Sheep([], Hungry, Zero, Zero, Zero, Zero, NoTile, 0.0, 0.0,
    MAX_HEALTH, 0.0, 0.0, 0.0, WALKING_SPEED, false, true, false, false, false, -1,
    DefaultTimer, DefaultTimer)

  /** `Sheep::Initiate` on a default-constructed sheep: a live, healthy, Hungry sheep
      of radius 20 at `position` that senses every 0.25 s and thinks every 0.5 s. */
  function NewSheep(position: Vector2): (s: Sheep)
    ensures s.isAlive && s.health == MAX_HEALTH && s.state == Hungry && s.age == 0.0
    ensures s.position == position && s.radius == 20.0 && s.velocity == WALKING_SPEED
    ensures !s.canReproduce && !s.isBeingHunted && !s.isMatedWith && s.sheepToMate == -1
    ensures s.path == [] && s.randomTargetTile == NoTile
    ensures s.senseTimer == Timer(0.0, 0.25) && s.thinkTimer == Timer(0.0, 0.5)
  {
    DefaultSheep.(position := position, radius := 20.0, origin := Vector2(19.5, 14.5),
                  senseTimer := Timer(0.0, 0.25), thinkTimer := Timer(0.0, 0.5))
  }

  /** `Sheep::SetTargetPosition`: aim at `p`; the direction is the normalised offset,
      computed by the given `normalize` (raylib's Vector2Normalize). */
  function SetTargetPosition(s: Sheep, p: Vector2, normalize: Vector2 -> Vector2): (r: Sheep)
    ensures r.targetPosition == p && r.direction == normalize(p.Sub(s.position))
    ensures r == s.(targetPosition := r.targetPosition, direction := r.direction)
  {
    s.(targetPosition := p, direction := normalize(p.Sub(s.position)))
  }

  /** `Sheep::TraverseUsingPath` on the sheep's own path: aim at the centre of the
      first tile, and drop that tile once the sheep is within its radius of the
      tile's corner. */
  function TraverseUsingPath(s: Sheep, g: Grid, normalize: Vector2 -> Vector2): (r: Sheep)
    ensures s.path == [] ==> r == s
    ensures s.path != [] ==> r.path == s.path || r.path == s.path[1..]
    ensures s.path != [] ==> r.targetPosition == g.TileToPosition(s.path[0]).Add(Vector2(16.0, 16.0))
    ensures r == s.(path := r.path, targetPosition := r.targetPosition, direction := r.direction)
  {
    if s.path == [] then s
    else
      var aimed := SetTargetPosition(s, g.TileToPosition(s.path[0]).Add(Vector2(16.0, 16.0)), normalize);
      if CloserThan(s.position, g.TileToPosition(s.path[0]), s.radius) then aimed.(path := s.path[1..])
      else aimed
  }

  /** `Sheep::Wander`: follow the path only while the target tile is on the grid. */
  function Wander(s: Sheep, g: Grid, normalize: Vector2 -> Vector2): (r: Sheep)
    ensures !g.IsValidCoord(s.randomTargetTile) ==> r == s
    ensures g.IsValidCoord(s.randomTargetTile) ==> r == TraverseUsingPath(s, g, normalize)
    ensures r == s.(path := r.path, targetPosition := r.targetPosition, direction := r.direction)
  {
    if s.path == [] || !g.IsValidCoord(s.randomTargetTile) then s
    else TraverseUsingPath(s, g, normalize)
  }

  /** `Sheep::CanSheepEat`: at least two seconds since the last meal. */
  predicate CanSheepEat(s: Sheep)
  {
    s.timeBetweenEating >= DELAY_EATING
  }

  /** `Sheep::TakeDamage`: health goes down by `amount` but not below 0. */
  function TakeDamage(s: Sheep, amount: real): (r: Sheep)
    ensures r.health >= 0.0
    ensures s.health - amount >= 0.0 ==> r.health == s.health - amount
    ensures s.health - amount < 0.0 ==> r.health == 0.0
    ensures r == s.(health := r.health)
  {
    var h := s.health - amount;
    s.(health := if h < 0.0 then 0.0 else h)
  }

  /** `Sheep::RegenerateHealth`: health goes up by `amount` but not above MAX_HEALTH. */
  function RegenerateHealth(s: Sheep, amount: real): (r: Sheep)
    ensures r.health <= MAX_HEALTH
    ensures s.health + amount < MAX_HEALTH ==> r.health == s.health + amount
    ensures s.health + amount >= MAX_HEALTH ==> r.health == MAX_HEALTH
    ensures r == s.(health := r.health)
  {
    var h := s.health + amount;
    s.(health := if h >= MAX_HEALTH then MAX_HEALTH else h)
  }

  /** Health in [0, MAX_HEALTH]. */
  predicate HealthInRange(s: Sheep)
  {
    0.0 <= s.health <= MAX_HEALTH
  }

  /** Damage and regeneration by non-negative amounts keep health in
      [0, MAX_HEALTH], and ten points of damage (a wolf's bite) always kill. */
  lemma HealthStaysInRange(s: Sheep, amount: real)
    requires HealthInRange(s) && amount >= 0.0
    ensures HealthInRange(TakeDamage(s, amount))
    ensures HealthInRange(RegenerateHealth(s, amount))
    ensures TakeDamage(s, MAX_HEALTH).health == 0.0
  {
  }

  /** The sheep's own part of `Sheep::EatGrass`: one more portion, the meal clock
      restarts, two health points come back, and the third portion makes the sheep
      Satiated and able to reproduce. */
  function EatGrass(s: Sheep): (r: Sheep)
    ensures r.amountGrassEaten == s.amountGrassEaten + 1.0 && r.timeBetweenEating == 0.0
    ensures r.health == RegenerateHealth(s, HEALTH_REGENERATION).health
    ensures r.amountGrassEaten >= AMOUNT_GRASS_SATIATED ==>
      r.canReproduce && r.timeSatiated == 0.0 && r.state == Satiated
    ensures r.amountGrassEaten < AMOUNT_GRASS_SATIATED ==>
      r.canReproduce == s.canReproduce && r.timeSatiated == s.timeSatiated && r.state == s.state
    ensures r == s.(amountGrassEaten := r.amountGrassEaten, timeBetweenEating := 0.0, health := r.health,
                    canReproduce := r.canReproduce, timeSatiated := r.timeSatiated, state := r.state)
  {
    var fed := RegenerateHealth(s.(amountGrassEaten := s.amountGrassEaten + 1.0, timeBetweenEating := 0.0),
                                HEALTH_REGENERATION);
    if fed.amountGrassEaten >= AMOUNT_GRASS_SATIATED then
      fed.(canReproduce := true, timeSatiated := 0.0, state := Satiated)
    else fed
  }

  /** A Hungry sheep that has eaten nothing becomes Satiated on exactly its third
      meal. */
  lemma {:induction false} ThirdMealSatiates(s: Sheep)
    requires s.state == Hungry && s.amountGrassEaten == 0.0
    ensures EatGrass(s).state == Hungry
    ensures EatGrass(EatGrass(s)).state == Hungry
    ensures EatGrass(EatGrass(EatGrass(s))).state == Satiated
    ensures EatGrass(EatGrass(EatGrass(s))).canReproduce
  {
    var s1 := EatGrass(s);
    assert s1.amountGrassEaten == 1.0;
    var s2 := EatGrass(s1);
    assert s2.amountGrassEaten == 2.0;
  }

  /** The sheep's own part of `Sheep::Defecate`: back to Hungry with its meal count
      and both clocks at zero. */
  function Defecate(s: Sheep): (r: Sheep)
    ensures r.state == Hungry && r.amountGrassEaten == 0.0
    ensures r.timeBetweenEating == 0.0 && r.timeSatiated == 0.0
    ensures r == s.(state := Hungry, amountGrassEaten := 0.0, timeBetweenEating := 0.0, timeSatiated := 0.0)
  {
    s.(amountGrassEaten := 0.0, timeBetweenEating := 0.0, timeSatiated := 0.0, state := Hungry)
  }

  /** After defecating, a sheep needs three more meals before it is Satiated again. */
  lemma DefecateRestartsMealCount(s: Sheep)
    ensures EatGrass(Defecate(s)).state == Hungry
    ensures EatGrass(EatGrass(Defecate(s))).state == Hungry
    ensures EatGrass(EatGrass(EatGrass(Defecate(s)))).state == Satiated
  {
    ThirdMealSatiates(Defecate(s));
  }

  /** The sheep's own part of `Sheep::KillSheep`. */
  function Kill(s: Sheep): (r: Sheep)
    ensures !r.isAlive && r.age == 0.0
    ensures r == s.(isAlive := false, age := 0.0)
  {
    s.(isAlive := false, age := 0.0)
  }

  /** `World::ResetSheepMate`: the mate walks again, forgets its target tile, can no
      longer reproduce, is no longer mated with and becomes Satiated. */
  function ResetMate(s: Sheep): (r: Sheep)
    ensures r.state == Satiated && !r.canReproduce && !r.isMatedWith
    ensures r.velocity == WALKING_SPEED && r.randomTargetTile == NoTile
    ensures r == s.(state := Satiated, canReproduce := false, isMatedWith := false,
                    velocity := WALKING_SPEED, randomTargetTile := NoTile)
  {
    s.(velocity := WALKING_SPEED, randomTargetTile := NoTile, canReproduce := false,
       isMatedWith := false, state := Satiated)
  }

  /** `World::SetSheepAsMate`: the chosen mate stops where it is (its target is its
      own position) and becomes Reproducing and mated with. */
  function SetAsMate(s: Sheep, normalize: Vector2 -> Vector2): (r: Sheep)
    ensures r.isMatedWith && r.state == Reproducing && r.targetPosition == s.position
    ensures r.position == s.position && r.path == s.path && r.health == s.health
    ensures r == SetTargetPosition(s, s.position, normalize).(isMatedWith := true, state := Reproducing)
  {
    SetTargetPosition(s.(isMatedWith := true), s.position, normalize).(state := Reproducing)
  }

  /** The sheep's own part of `Sheep::Reproduce`: Satiated again, walking, without
      mate, target tile or the ability to reproduce. */
  function AfterReproducing(s: Sheep): (r: Sheep)
    ensures r.state == Satiated && !r.canReproduce && r.sheepToMate == -1
    ensures r.randomTargetTile == NoTile && r.velocity == WALKING_SPEED
    ensures r == s.(state := Satiated, canReproduce := false, sheepToMate := -1,
                    randomTargetTile := NoTile, velocity := WALKING_SPEED)
  {
    s.(canReproduce := false, randomTargetTile := NoTile, state := Satiated,
       sheepToMate := -1, velocity := WALKING_SPEED)
  }

  /** The start of `Sheep::update` for a hunted sheep: it drops its target tile and
      its mate and becomes Afraid. */
  function BecomeAfraid(s: Sheep): (r: Sheep)
    ensures r.state == Afraid && r.randomTargetTile == NoTile && !r.isMatedWith
    ensures r == s.(state := Afraid, randomTargetTile := NoTile, isMatedWith := false)
  {
    s.(randomTargetTile := NoTile, isMatedWith := false, state := Afraid)
  }

  /** `Sheep::GoTowardsMate`: run along the path. */
  function GoTowardsMate(s: Sheep, g: Grid, normalize: Vector2 -> Vector2): (r: Sheep)
    ensures r.velocity == RUNNING_SPEED
    ensures r == TraverseUsingPath(s.(velocity := RUNNING_SPEED), g, normalize)
  {
    TraverseUsingPath(s.(velocity := RUNNING_SPEED), g, normalize)
  }

  /** `Sheep::Act`: the clocks and the position advance by `dt` in every state;
      the satiation clock runs only while Satiated. */
  function Act(s: Sheep, dt: real): (r: Sheep)
    ensures r.age == s.age + dt && r.timeBetweenEating == s.timeBetweenEating + dt
    ensures r.timeSatiated == (if s.state == Satiated then s.timeSatiated + dt else s.timeSatiated)
    ensures r.position == s.position.Add(s.direction.Scale(s.velocity * dt))
    ensures r.flipX == (s.direction.x > 0.0)
    ensures r == s.(age := r.age, timeBetweenEating := r.timeBetweenEating, timeSatiated := r.timeSatiated,
                    position := r.position, flipX := r.flipX)
  {
    s.(age := s.age + dt, timeBetweenEating := s.timeBetweenEating + dt,
       timeSatiated := if s.state == Satiated then s.timeSatiated + dt else s.timeSatiated,
       position := s.position.Add(s.direction.Scale(s.velocity * dt)),
       flipX := s.direction.x > 0.0)
  }

  /** Act never changes the state machine's state, the health or the path. */
  lemma ActKeepsState(s: Sheep, dt: real)
    ensures Act(s, dt).state == s.state && Act(s, dt).health == s.health && Act(s, dt).path == s.path
    ensures dt >= 0.0 ==> Act(s, dt).timeBetweenEating >= s.timeBetweenEating
  {
  }

  /** The sheep's own part of the Hungry case of `Sheep::Think`: wander; eat when two
      seconds have passed since the last meal and the grass underneath is edible
      (`edible`, a world query); then, once the meal is more than EATING_GRACE old and
      TIME_BEFORE_DAMAGE seconds have passed without food, lose `dt` health. */
  function ThinkHungry(s: Sheep, g: Grid, normalize: Vector2 -> Vector2, edible: bool, dt: real): Sheep
  {
    var wandered := Wander(s, g, normalize);
    var fed := if CanSheepEat(wandered) && edible then EatGrass(wandered) else wandered;
    if fed.timeBetweenEating > EATING_GRACE && fed.timeBetweenEating >= TIME_BEFORE_DAMAGE then
      TakeDamage(fed, dt)
    else fed
  }

  /** A Hungry sheep eats in Think exactly when it may eat and the grass is edible;
      it is hurt only when it did not eat and has gone TIME_BEFORE_DAMAGE seconds
      without food, and then by `dt` (clamped at 0). It never moves, and it is
      Hungry or, after its third meal, Satiated. */
  lemma ThinkHungryEffect(s: Sheep, g: Grid, normalize: Vector2 -> Vector2, edible: bool, dt: real)
    requires s.state == Hungry && dt >= 0.0 && HealthInRange(s)
    ensures var r := ThinkHungry(s, g, normalize, edible, dt);
      && (r.amountGrassEaten == s.amountGrassEaten + 1.0 <==> CanSheepEat(s) && edible)
      && (!(CanSheepEat(s) && edible) ==> r.amountGrassEaten == s.amountGrassEaten)
      && (r.health < s.health ==> !(CanSheepEat(s) && edible) && s.timeBetweenEating >= TIME_BEFORE_DAMAGE)
      && (!(CanSheepEat(s) && edible) && s.timeBetweenEating >= TIME_BEFORE_DAMAGE ==>
            r.health == TakeDamage(s, dt).health)
      && r.position == s.position && r.isAlive == s.isAlive
      && (r.state == Hungry || r.state == Satiated)
  {
    var wandered := Wander(s, g, normalize);
    if CanSheepEat(s) && edible {
      var fed := EatGrass(wandered);
      assert fed.timeBetweenEating == 0.0;
      assert ThinkHungry(s, g, normalize, edible, dt) == fed;
    } else {
      assert ThinkHungry(s, g, normalize, edible, dt) ==
        if s.timeBetweenEating > EATING_GRACE && s.timeBetweenEating >= TIME_BEFORE_DAMAGE then
          TakeDamage(wandered, dt) else wandered;
    }
  }

  /** Whether a Satiated sheep turns Reproducing in Think: more than EATING_GRACE
      since its last meal, full health and able to reproduce. */
  predicate ReadyToReproduce(s: Sheep)
  {
    s.timeBetweenEating > EATING_GRACE && s.health >= MAX_HEALTH && s.canReproduce
  }

  /** The Satiated case of `Sheep::Think`: wander; turn Reproducing when ready,
      which skips defecation; otherwise defecate once DELAY_DEFECATING seconds
      have passed in Satiated. */
  function ThinkSatiated(s: Sheep, g: Grid, normalize: Vector2 -> Vector2): Sheep
  {
    var wandered := if g.IsValidCoord(s.randomTargetTile) then Wander(s, g, normalize) else s;
    if wandered.timeBetweenEating > EATING_GRACE && wandered.health >= MAX_HEALTH && wandered.canReproduce then
      wandered.(state := Reproducing)
    else if wandered.timeSatiated >= DELAY_DEFECATING then Defecate(wandered)
    else wandered
  }

  /** Whether the Satiated case of Think defecates (and so drops manure). */
  predicate DefecatesWhenSatiated(s: Sheep)
  {
    !ReadyToReproduce(s) && s.timeSatiated >= DELAY_DEFECATING
  }

  /** The Satiated transitions: to Reproducing exactly when ready, to Hungry (by
      defecating, which clears the meal count) exactly when not ready and satiated
      for DELAY_DEFECATING seconds, and otherwise the sheep stays Satiated. */
  lemma ThinkSatiatedTransitions(s: Sheep, g: Grid, normalize: Vector2 -> Vector2)
    requires s.state == Satiated
    ensures var r := ThinkSatiated(s, g, normalize);
      && (r.state == Reproducing <==> ReadyToReproduce(s))
      && (r.state == Hungry <==> DefecatesWhenSatiated(s))
      && (DefecatesWhenSatiated(s) ==> r.amountGrassEaten == 0.0 && r.timeSatiated == 0.0)
      && (!DefecatesWhenSatiated(s) ==> r.amountGrassEaten == s.amountGrassEaten)
      && r.position == s.position && r.health == s.health && r.canReproduce == s.canReproduce
  {
    var wandered := if g.IsValidCoord(s.randomTargetTile) then Wander(s, g, normalize) else s;
    assert wandered == s.(path := wandered.path, targetPosition := wandered.targetPosition,
                          direction := wandered.direction);
    assert ReadyToReproduce(wandered) == ReadyToReproduce(s);
    if !ReadyToReproduce(s) && s.timeSatiated >= DELAY_DEFECATING {
      assert ThinkSatiated(s, g, normalize) == Defecate(wandered);
    }
  }

  /** The Reproducing case of `Sheep::Think` when the chosen mate cannot mate: a mate
      that no longer exists (`mateExists` false) sends the sheep back to Satiated,
      still able to reproduce; in every case it forgets the mate and its target tile
      and walks. */
  function GiveUpMate(s: Sheep, mateExists: bool): Sheep
  {
    var reset := if !mateExists then
        s.(sheepToMate := -1, canReproduce := true, isMatedWith := false, velocity := WALKING_SPEED,
           randomTargetTile := NoTile, state := Satiated)
      else s;
    reset.(sheepToMate := -1, velocity := WALKING_SPEED, randomTargetTile := NoTile, isMatedWith := false)
  }

  /** Giving up a mate: only a vanished mate changes the state (to Satiated, with the
      ability to reproduce kept on); a mate that exists but cannot mate leaves the
      sheep Reproducing, searching again at the next Sense. */
  lemma GiveUpMateEffect(s: Sheep, mateExists: bool)
    ensures var r := GiveUpMate(s, mateExists);
      && r.sheepToMate == -1 && r.velocity == WALKING_SPEED && r.randomTargetTile == NoTile && !r.isMatedWith
      && (!mateExists ==> r.state == Satiated && r.canReproduce)
      && (mateExists ==> r.state == s.state && r.canReproduce == s.canReproduce)
      && r.position == s.position && r.health == s.health && r.path == s.path
  {
  }

  /** The sheep's own first part of `Sheep::RunAway`: it cannot reproduce, runs and
      is no longer mated with. */
  function Flee(s: Sheep): (r: Sheep)
    ensures !r.canReproduce && r.velocity == RUNNING_SPEED && !r.isMatedWith
    ensures r.state == s.state && r.position == s.position && r.path == s.path
  {
    s.(canReproduce := false, velocity := RUNNING_SPEED, isMatedWith := false)
  }

  /** The target-reached test of `Sheep::Sense`: within `reach` of the tile's corner,
      or within twice the radius when the tile lies on the top or left edge or one
      past the right or bottom edge. */
  predicate HasReachedTile(s: Sheep, g: Grid, reach: real)
  {
    var t := s.randomTargetTile;
    if t.x == 0 || t.y == 0 || t.x == g.size.x || t.y == g.size.y then
      CloserThan(s.position, g.TileToPosition(t), 2.0 * s.radius)
    else CloserThan(s.position, g.TileToPosition(t), reach)
  }

  /** The flee box of the Afraid case of `Sheep::Sense`: a square of half-side
      FLEEING_RANGE around the sheep, cut to the half away from the wolf on the x
      axis; on the y axis, when the wolf is not above, the upper corner is the wolf's
      own y. */
  function FleeBox(s: Sheep, wolfPosition: Vector2): (b: (Vector2, Vector2))
    ensures wolfPosition.x < s.position.x ==> b.0.x == s.position.x && b.1.x == s.position.x + FLEEING_RANGE
    ensures wolfPosition.x >= s.position.x ==> b.0.x == s.position.x - FLEEING_RANGE && b.1.x == s.position.x
    ensures wolfPosition.y < s.position.y ==> b.0.y == s.position.y && b.1.y == s.position.y + FLEEING_RANGE
    ensures wolfPosition.y >= s.position.y ==> b.0.y == s.position.y - FLEEING_RANGE && b.1.y == wolfPosition.y
  {
    var lo := Vector2(s.position.x - FLEEING_RANGE, s.position.y - FLEEING_RANGE);
    var hi := Vector2(s.position.x + FLEEING_RANGE, s.position.y + FLEEING_RANGE);
    var lo1 := if wolfPosition.x < s.position.x then lo.(x := s.position.x) else lo;
    var hi1 := if wolfPosition.x < s.position.x then hi else hi.(x := s.position.x);
    var lo2 := if wolfPosition.y < s.position.y then lo1.(y := s.position.y) else lo1;
    var hi2 := if wolfPosition.y < s.position.y then hi1 else hi1.(y := wolfPosition.y);
    (lo2, hi2)
  }

  /** On the x axis the flee box never reaches past the sheep towards the wolf;
      on the y axis the box is not symmetric: when the wolf is below the sheep it
      stretches from FLEEING_RANGE above the sheep down to the wolf itself. */
  lemma FleeBoxAwayOnX(s: Sheep, wolfPosition: Vector2)
    ensures var b := FleeBox(s, wolfPosition);
      && (wolfPosition.x < s.position.x ==> wolfPosition.x < b.0.x <= b.1.x)
      && (wolfPosition.x >= s.position.x ==> b.0.x <= b.1.x <= wolfPosition.x)
      && (wolfPosition.y > s.position.y ==> b.0.y < s.position.y < b.1.y == wolfPosition.y)
  {
  }
}
