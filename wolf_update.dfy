/** The members of `sim::Wolf` that reach into the world: choosing target tiles
    (away from or straight at the herder), picking prey, searching paths, hunting,
    eating a sheep, attacking the herder, going to the den, and the `update` that
    drives Sense, Think and Act. The wolf is `w.wolf`, the object the world's own
    queries read. */
module WolfBehaviour {
  import opened Geometry
  import opened TileGrid
  import opened Random
  import opened GroundLayer
  import opened PathFinding
  import opened WorldModel
  import T = Timers
  import S = SheepAgent
  import W = WolfAgent
  import H = HerderAgent

  // ---------------------------------------------------------------------------
  // Target tiles and prey

  /** Whether the Hungry case of Sense draws a new target tile: the current one is
      off the grid or has been reached. */
  predicate NeedsNewTarget(wolf: W.Wolf, g: Grid)
  {
    !g.IsValidCoord(wolf.randomTargetTile) || W.HasReachedTile(wolf, g)
  }

  /** The whole-pixel point the wolf draws in its flee box when the herder is near;
      the box is computed from the wolf's own position. */
  function FleePoint(wolf: W.Wolf, source: nat -> nat, first: nat): (int, int)
  {
    var box := W.HerderFleeBox(wolf, wolf.position);
    (RandomValue(source(first), TruncToInt(box.0.x), TruncToInt(box.1.x)),
     RandomValue(source(first + 1), TruncToInt(box.0.y), TruncToInt(box.1.y)))
  }

  /** The wolf "flees" the herder only up and to the left: the drawn point is never
      right of or below the wolf, and at most MAX_HUNTING_DISTANCE away on each axis,
      wherever the herder stands. */
  lemma FleePointIsUpLeft(wolf: W.Wolf, source: nat -> nat, first: nat)
    ensures var p := FleePoint(wolf, source, first);
      && TruncToInt(wolf.position.x - W.MAX_HUNTING_DISTANCE) <= p.0 <= TruncToInt(wolf.position.x)
      && TruncToInt(wolf.position.y - W.MAX_HUNTING_DISTANCE) <= p.1 <= TruncToInt(wolf.position.y)
  {
    W.HerderFleeBoxIsUpLeft(wolf);
    TruncMonotone(wolf.position.x - W.MAX_HUNTING_DISTANCE, wolf.position.x);
    TruncMonotone(wolf.position.y - W.MAX_HUNTING_DISTANCE, wolf.position.y);
  }

  lemma TruncMonotone(a: real, b: real)
    requires a <= b
    ensures TruncToInt(a) <= TruncToInt(b)
  {
  }

  /** How many values the Hungry case of Sense draws: two for a new target, two more
      to flee a nearby herder. */
  function Draws(wolf: W.Wolf, g: Grid, nearby: bool): nat
  {
    (if NeedsNewTarget(wolf, g) then 2 else 0) + (if nearby then 2 else 0)
  }

  /** The target tile the Hungry case of Sense leaves: a tile drawn within
      MAX_WANDERING_DISTANCE when needed; replaced by the tile of the flee point when
      the herder is near; replaced by the herder's own tile when it is too close. */
  function SensedTarget(wolf: W.Wolf, g: Grid, nearby: bool, tooClose: bool, herderTile: Point,
                        source: nat -> nat, first: nat): Point
    requires g.WellFormed() && 0 <= g.offset.x && 0 <= g.offset.y
  {
    var needs := NeedsNewTarget(wolf, g);
    var wandering := if needs then RandomTileNear(g, wolf.position, W.MAX_WANDERING_DISTANCE, source, first)
                     else wolf.randomTargetTile;
    var fleeing := if nearby then
                     var p := FleePoint(wolf, source, first + (if needs then 2 else 0));
                     ClampedTile(g, p.0, p.1)
                   else wandering;
    if tooClose then herderTile else fleeing
  }

  /** A herder that is too close overrides every other target; a nearby one that is
      not too close sends the wolf to the clamped tile of a point up-left of it;
      otherwise the wolf keeps a valid, unreached target. */
  lemma SensedTargetChoice(wolf: W.Wolf, g: Grid, nearby: bool, tooClose: bool, herderTile: Point,
                           source: nat -> nat, first: nat)
    requires g.WellFormed() && 0 <= g.offset.x && 0 <= g.offset.y
    ensures var t := SensedTarget(wolf, g, nearby, tooClose, herderTile, source, first);
      && (tooClose ==> t == herderTile)
      && (nearby && !tooClose ==>
            exists x: int, y: int {:trigger ClampedTile(g, x, y)} ::
              t == ClampedTile(g, x, y) && x <= TruncToInt(wolf.position.x) && y <= TruncToInt(wolf.position.y))
      && (!nearby && !tooClose && !NeedsNewTarget(wolf, g) ==>
            t == wolf.randomTargetTile && g.IsValidCoord(t) && !W.HasReachedTile(wolf, g))
  {
    if nearby && !tooClose {
      var second := first + (if NeedsNewTarget(wolf, g) then 2 else 0);
      var p := FleePoint(wolf, source, second);
      FleePointIsUpLeft(wolf, source, second);
      assert SensedTarget(wolf, g, nearby, tooClose, herderTile, source, first) == ClampedTile(g, p.0, p.1);
    }
  }

  /** `ReturnSheepToEat`'s answer: -1 or the first sheep the wolf may hunt. */
  predicate IsFirstPrey(wolf: W.Wolf, sheep: seq<S.Sheep>, r: int)
  {
    && (r == -1 || (0 <= r < |sheep| && IsPrey(wolf, sheep[r])))
    && forall k :: 0 <= k < |sheep| && (r == -1 || k < r) ==> !IsPrey(wolf, sheep[k])
  }

  // ---------------------------------------------------------------------------
  // Sense, as a relation on values (the path search is a relation, not a function)

  /** The path the Hungry case of `Wolf::Sense` leaves a wolf `r` that holds its
      prey index and target tile: the search result to the prey's tile when the
      index passes `isSheepValid`, the search result to the target tile when there is
      no prey and that tile is on the grid, and the path it had otherwise. */
  ghost predicate HuntPathSensed(g: Grid, ground: seq<Ground>, start: Point, sheep: seq<S.Sheep>,
                                 before: seq<Point>, r: W.Wolf)
    requires |ground| == g.Count()
  {
    var h := r.sheepToHunt;
    && (IsSheepIndexValid(|sheep|, h) && h < |sheep| ==>
          SearchResult(g, ground, start, g.PositionToTile(sheep[h].position), r.path))
    && (h == -1 && g.IsValidCoord(r.randomTargetTile) ==> SearchResult(g, ground, start, r.randomTargetTile, r.path))
    && (!(IsSheepIndexValid(|sheep|, h) && h < |sheep|) && !(h == -1 && g.IsValidCoord(r.randomTargetTile)) ==>
          r.path == before)
  }

  /** The prey lookup of the Hungry case of `Wolf::Sense` on values: with the herder
      near the prey is dropped; a wolf that has prey keeps it; one without takes the
      first prey `ReturnSheepToEat` finds, which clears the hunted flag of every sheep
      before it and leaves the rest alone. */
  ghost predicate PreySensed(v: W.Wolf, sheep: seq<S.Sheep>, nearby: bool, r: W.Wolf, sheep': seq<S.Sheep>)
  {
    && |sheep'| == |sheep|
    && (nearby ==> r.sheepToHunt == -1 && sheep' == sheep)
    && (!nearby && v.sheepToHunt != -1 ==> r.sheepToHunt == v.sheepToHunt && sheep' == sheep)
    && (!nearby && v.sheepToHunt == -1 ==>
          && IsFirstPrey(r, sheep, r.sheepToHunt)
          && (forall k :: 0 <= k < |sheep'| && (r.sheepToHunt == -1 || k < r.sheepToHunt) ==>
                sheep'[k] == sheep[k].(isBeingHunted := false))
          && (forall k :: r.sheepToHunt != -1 && r.sheepToHunt <= k < |sheep'| ==> sheep'[k] == sheep[k]))
  }

  /** `Wolf::Sense` on values, for the wolf `v` and the sheep `sheep` before it and
      `r` and `sheep'` after, with the random source read from draw `first` on and
      `next` the first draw left. Asleep, nothing changes. Satiated, the path is the
      search result to the tile of the sleeping position. Hungry, the target tile is
      SensedTarget's, the prey is chosen as PreySensed says and the path as
      HuntPathSensed says; nothing else of the wolf changes. */
  ghost predicate Sensed(v: W.Wolf, sheep: seq<S.Sheep>, g: Grid, ground: seq<Ground>, nearby: bool, tooClose: bool,
                         herderTile: Point, source: nat -> nat, first: nat, r: W.Wolf, sheep': seq<S.Sheep>, next: nat)
    requires g.WellFormed() && 0 <= g.offset.x && 0 <= g.offset.y && |ground| == g.Count()
  {
    var start := g.PositionToTile(v.position);
    match v.state
    case Asleep => r == v && sheep' == sheep && next == first
    case Satiated =>
      && r == v.(path := r.path) && sheep' == sheep && next == first
      && SearchResult(g, ground, start, g.PositionToTile(v.sleepingPosition), r.path)
    case Hungry =>
      && r == v.(randomTargetTile := r.randomTargetTile, sheepToHunt := r.sheepToHunt, path := r.path)
      && r.randomTargetTile == SensedTarget(v, g, nearby, tooClose, herderTile, source, first)
      && next == first + Draws(v, g, nearby)
      && PreySensed(v, sheep, nearby, r, sheep')
      && HuntPathSensed(g, ground, start, sheep', v.path, r)
  }

  // ---------------------------------------------------------------------------
  // Think, on values

  /** `Wolf::HuntSheep` and the eating test on values: a prey index that passes
      `isSheepValid` makes the wolf run along its path; a prey that holds a sheep is
      marked hunted and, on contact, bitten for MAX_HEALTH and released while the
      wolf eats. */
  function Hunt(wolf: W.Wolf, sheep: seq<S.Sheep>, g: Grid, normalize: Vector2 -> Vector2)
    : (W.Wolf, seq<S.Sheep>)
  {
    var h := wolf.sheepToHunt;
    var hunting := if IsSheepIndexValid(|sheep|, h)
                   then W.TraverseUsingPath(wolf.(velocity := W.RUNNING_SPEED), g, normalize)
                   else wolf;
    if !(IsSheepIndexValid(|sheep|, h) && h < |sheep|) then (hunting, sheep)
    else
      var marked := sheep[h := sheep[h].(isBeingHunted := true)];
      if WithinDistance(hunting.position, marked[h].position, hunting.radius + marked[h].radius) then
        (W.EatSheep(hunting), marked[h := S.TakeDamage(marked[h], 10.0).(isBeingHunted := false)])
      else (hunting, marked)
  }

  /** Whether the prey index holds a sheep that touches the wolf. */
  predicate Touches(wolf: W.Wolf, sheep: seq<S.Sheep>)
  {
    var h := wolf.sheepToHunt;
    && IsSheepIndexValid(|sheep|, h) && 0 <= h < |sheep|
    && WithinDistance(wolf.position, sheep[h].position, wolf.radius + sheep[h].radius)
  }

  /** Hunting eats exactly a touching prey: it loses MAX_HEALTH (all of it) and is no
      longer hunted, and the wolf has one more sheep inside it and no prey. A prey
      out of reach is marked hunted and nobody loses health. No other sheep changes,
      and the wolf does not move. */
  lemma HuntEffect(wolf: W.Wolf, sheep: seq<S.Sheep>, g: Grid, normalize: Vector2 -> Vector2)
    requires wolf.state == W.Hungry
    ensures var r := Hunt(wolf, sheep, g, normalize); var h := wolf.sheepToHunt;
      && |r.1| == |sheep|
      && (Touches(wolf, sheep) ==>
            && r.1[h] == S.TakeDamage(sheep[h], S.MAX_HEALTH).(isBeingHunted := false)
            && (sheep[h].health <= S.MAX_HEALTH ==> r.1[h].health == 0.0)
            && r.0.amountSheepEaten == wolf.amountSheepEaten + 1 && r.0.sheepToHunt == -1)
      && (!Touches(wolf, sheep) ==>
            && (forall k :: 0 <= k < |sheep| ==> r.1[k].health == sheep[k].health)
            && r.0.amountSheepEaten == wolf.amountSheepEaten)
      && (0 <= h < |sheep| <= SIZE_MAX && !Touches(wolf, sheep) ==> r.1[h].isBeingHunted)
      && (forall k :: 0 <= k < |sheep| && k != h ==> r.1[k] == sheep[k])
      && (forall k :: 0 <= k < |sheep| ==>
            r.1[k] == sheep[k].(health := r.1[k].health, isBeingHunted := r.1[k].isBeingHunted))
      && r.0.position == wolf.position && r.0.senseTimer == wolf.senseTimer && r.0.thinkTimer == wolf.thinkTimer
      && (r.0.state == W.Hungry || r.0.state == W.Satiated)
  {
    var h := wolf.sheepToHunt;
    var hunting := if IsSheepIndexValid(|sheep|, h)
                   then W.TraverseUsingPath(wolf.(velocity := W.RUNNING_SPEED), g, normalize)
                   else wolf;
    assert hunting == wolf.(velocity := hunting.velocity, path := hunting.path,
                            targetPosition := hunting.targetPosition, direction := hunting.direction,
                            hasATarget := hunting.hasATarget);
  }

  /** The Hungry case of `Wolf::Think` on the wolf, the sheep and the herder:
      run when the herder is near; attack it when too close; otherwise wander
      without prey, and, unless it ate less than DELAY_BETWEEN_EATING ago, hunt. */
  function ThinkHungry(wolf: W.Wolf, sheep: seq<S.Sheep>, herder: H.Herder, g: Grid,
                       normalize: Vector2 -> Vector2, nearby: bool, tooClose: bool)
    : (W.Wolf, seq<S.Sheep>, H.Herder)
  {
    var paced := wolf.(velocity := if nearby then W.RUNNING_SPEED else W.WALKING_SPEED);
    if tooClose then (W.AttackHerder(paced), sheep, herder.(isAttacked := true))
    else
      var wandered := if paced.sheepToHunt == -1 && g.IsValidCoord(paced.randomTargetTile)
                      then W.Wander(paced, g, normalize) else paced;
      if wandered.timeBetweenEating < W.DELAY_BETWEEN_EATING then (wandered, sheep, herder)
      else
        var hunted := Hunt(wandered, sheep, g, normalize);
        (hunted.0, hunted.1, herder)
  }

  /** Whether the Hungry case of Think eats its prey: the herder is not too close,
      the last meal is at least DELAY_BETWEEN_EATING old and the prey touches. */
  predicate Eats(wolf: W.Wolf, sheep: seq<S.Sheep>, tooClose: bool)
  {
    !tooClose && wolf.timeBetweenEating >= W.DELAY_BETWEEN_EATING && Touches(wolf, sheep)
  }

  /** Attacking: a herder that is too close is stunned and the wolf turns Satiated
      with its hunt over; no sheep is touched. */
  lemma AttackWhenTooClose(wolf: W.Wolf, sheep: seq<S.Sheep>, herder: H.Herder, g: Grid,
                           normalize: Vector2 -> Vector2, nearby: bool)
    ensures var r := ThinkHungry(wolf, sheep, herder, g, normalize, nearby, true);
      && r.0.state == W.Satiated && r.0.sheepToHunt == -1 && !r.0.hasATarget
      && r.1 == sheep && r.2 == herder.(isAttacked := true)
  {
  }

  /** Think in Hungry eats exactly when Eats holds, with the effect of HuntEffect;
      otherwise no sheep loses health. The herder is left alone unless it was too
      close, the wolf does not move, and it stays Hungry or becomes Satiated. */
  lemma ThinkHungryEffect(wolf: W.Wolf, sheep: seq<S.Sheep>, herder: H.Herder, g: Grid,
                          normalize: Vector2 -> Vector2, nearby: bool, tooClose: bool)
    requires wolf.state == W.Hungry
    ensures var r := ThinkHungry(wolf, sheep, herder, g, normalize, nearby, tooClose); var h := wolf.sheepToHunt;
      && |r.1| == |sheep|
      && (Eats(wolf, sheep, tooClose) ==>
            && r.1[h] == S.TakeDamage(sheep[h], S.MAX_HEALTH).(isBeingHunted := false)
            && r.0.amountSheepEaten == wolf.amountSheepEaten + 1 && r.0.sheepToHunt == -1)
      && (!Eats(wolf, sheep, tooClose) ==>
            && (forall k :: 0 <= k < |sheep| ==> r.1[k].health == sheep[k].health)
            && r.0.amountSheepEaten == wolf.amountSheepEaten)
      && (forall k :: 0 <= k < |sheep| && k != h ==> r.1[k] == sheep[k])
      && (forall k :: 0 <= k < |sheep| ==>
            r.1[k] == sheep[k].(health := r.1[k].health, isBeingHunted := r.1[k].isBeingHunted))
      && (!tooClose ==> r.2 == herder)
      && r.0.position == wolf.position && r.0.senseTimer == wolf.senseTimer && r.0.thinkTimer == wolf.thinkTimer
      && (r.0.state == W.Hungry || r.0.state == W.Satiated)
  {
    var paced := wolf.(velocity := if nearby then W.RUNNING_SPEED else W.WALKING_SPEED);
    var r := ThinkHungry(wolf, sheep, herder, g, normalize, nearby, tooClose);
    if tooClose {
      assert r == (W.AttackHerder(paced), sheep, herder.(isAttacked := true));
    } else {
      var wandered := if paced.sheepToHunt == -1 && g.IsValidCoord(paced.randomTargetTile)
                      then W.Wander(paced, g, normalize) else paced;
      assert wandered == paced.(path := wandered.path, targetPosition := wandered.targetPosition,
                                direction := wandered.direction, hasATarget := wandered.hasATarget);
      assert Touches(wandered, sheep) == Touches(wolf, sheep);
      if wandered.timeBetweenEating >= W.DELAY_BETWEEN_EATING {
        var hunted := Hunt(wandered, sheep, g, normalize);
        assert r == (hunted.0, hunted.1, herder);
        HuntEffect(wandered, sheep, g, normalize);
      } else {
        assert r == (wandered, sheep, herder);
      }
    }
  }

  /** The Satiated case of `Wolf::Think`: follow the path to the den and fall asleep
      within one radius of the sleeping position. */
  function ThinkSatiated(wolf: W.Wolf, g: Grid, normalize: Vector2 -> Vector2): W.Wolf
  {
    var going := W.GoToDen(wolf, g, normalize);
    if CloserThan(going.position, going.sleepingPosition, going.radius) then W.Sleep(going) else going
  }

  /** `Wolf::Think` on values, dispatched on the wolf's state. */
  function ThinkOutcome(wolf: W.Wolf, sheep: seq<S.Sheep>, herder: H.Herder, g: Grid,
                        normalize: Vector2 -> Vector2, nearby: bool, tooClose: bool)
    : (W.Wolf, seq<S.Sheep>, H.Herder)
  {
    match wolf.state
    case Hungry => ThinkHungry(wolf, sheep, herder, g, normalize, nearby, tooClose)
    case Satiated => (ThinkSatiated(wolf, g, normalize), sheep, herder)
    case Asleep => (W.ThinkAsleep(wolf), sheep, herder)
  }

  /** The wolf's states form a cycle: a Hungry wolf stays Hungry or becomes
      Satiated (by its third sheep or by attacking the herder), a Satiated one stays
      or falls asleep (exactly when within one radius of its sleeping position), and
      a sleeping one stays asleep or wakes Hungry (exactly after SLEEP_TIME). Think
      never moves the wolf, never changes the number of sheep, and keeps the wolf's
      timers. */
  lemma StateCycle(wolf: W.Wolf, sheep: seq<S.Sheep>, herder: H.Herder, g: Grid,
                   normalize: Vector2 -> Vector2, nearby: bool, tooClose: bool)
    ensures var r := ThinkOutcome(wolf, sheep, herder, g, normalize, nearby, tooClose);
      && (wolf.state == W.Hungry ==> r.0.state == W.Hungry || r.0.state == W.Satiated)
      && (wolf.state == W.Satiated ==>
            (r.0.state == W.Asleep <==> CloserThan(wolf.position, wolf.sleepingPosition, wolf.radius))
            && (r.0.state == W.Asleep || r.0.state == W.Satiated))
      && (wolf.state == W.Asleep ==>
            (r.0.state == W.Hungry <==> wolf.timeAsleep >= W.SLEEP_TIME)
            && (r.0.state == W.Hungry || r.0.state == W.Asleep))
      && r.0.position == wolf.position && |r.1| == |sheep|
      && r.0.senseTimer == wolf.senseTimer && r.0.thinkTimer == wolf.thinkTimer
      && (wolf.state != W.Hungry ==> r.1 == sheep && r.2 == herder)
  {
    match wolf.state
    case Hungry =>
      ThinkHungryEffect(wolf, sheep, herder, g, normalize, nearby, tooClose);
    case Satiated =>
      var going := W.GoToDen(wolf, g, normalize);
      assert going.position == wolf.position && going.sleepingPosition == wolf.sleepingPosition
        && going.radius == wolf.radius;
    case Asleep =>
  }

  /** A wolf that ate less than DELAY_BETWEEN_EATING seconds ago harms no sheep. */
  lemma NoHuntRightAfterMeal(wolf: W.Wolf, sheep: seq<S.Sheep>, herder: H.Herder, g: Grid,
                             normalize: Vector2 -> Vector2, nearby: bool, tooClose: bool)
    requires wolf.timeBetweenEating < W.DELAY_BETWEEN_EATING
    ensures ThinkHungry(wolf, sheep, herder, g, normalize, nearby, tooClose).1 == sheep
  {
    var paced := wolf.(velocity := if nearby then W.RUNNING_SPEED else W.WALKING_SPEED);
    var wandered := if paced.sheepToHunt == -1 && g.IsValidCoord(paced.randomTargetTile)
                    then W.Wander(paced, g, normalize) else paced;
    assert wandered.timeBetweenEating == wolf.timeBetweenEating;
  }

  // ---------------------------------------------------------------------------
  // The members, on the world

  /** The start of the Hungry case of `Wolf::Sense`: a new target tile when needed. */
  method RetargetIfNeeded(w: World)
    requires w.Valid()
    modifies w, w.rng
    ensures w.wolf == old(w.wolf).(randomTargetTile := w.wolf.randomTargetTile)
    ensures NeedsNewTarget(old(w.wolf), w.grid) ==>
      w.wolf.randomTargetTile == RandomTileNear(w.grid, old(w.wolf).position, W.MAX_WANDERING_DISTANCE,
                                                w.rng.source, old(w.rng.next))
    ensures !NeedsNewTarget(old(w.wolf), w.grid) ==> w.wolf.randomTargetTile == old(w.wolf).randomTargetTile
    ensures w.rng.next == old(w.rng.next) + (if NeedsNewTarget(old(w.wolf), w.grid) then 2 else 0)
    ensures w.sheep == old(w.sheep) && w.herder == old(w.herder) && w.running == old(w.running)
  {
    var doesTileExist := w.grid.IsValidCoord(w.wolf.randomTargetTile);
    var hasReachedDestination := W.HasReachedTile(w.wolf, w.grid);
    if !doesTileExist || hasReachedDestination {
      var t := w.GetRandomTile(w.wolf.position, W.MAX_WANDERING_DISTANCE);
      w.wolf := w.wolf.(randomTargetTile := t);
    }
  }

  /** The tile that the two draws `x` and `y` of FleePoint clamp to. */
  lemma FleeTileOfDraws(g: Grid, wolf: W.Wolf, source: nat -> nat, first: nat, x: int, y: int)
    requires g.WellFormed() && 0 <= g.offset.x && 0 <= g.offset.y
    requires var box := W.HerderFleeBox(wolf, wolf.position);
      && x == RandomValue(source(first), TruncToInt(box.0.x), TruncToInt(box.1.x))
      && y == RandomValue(source(first + 1), TruncToInt(box.0.y), TruncToInt(box.1.y))
    ensures var p := FleePoint(wolf, source, first); ClampedTile(g, x, y) == ClampedTile(g, p.0, p.1)
  {
    assert FleePoint(wolf, source, first) == (x, y);
  }

  /** The herder part of the Hungry case of `Wolf::Sense`: a nearby herder cancels
      the prey and sends the wolf to a drawn flee tile; a herder too close becomes
      the target itself. */
  method ReactToHerder(w: World)
    requires w.Valid()
    modifies w, w.rng
    ensures var nearby := w.IsHerderNearby(w.grid.PositionToTile(w.wolf.position));
      var tooClose := w.IsHerderTooClose(w.grid.PositionToTile(w.wolf.position));
      var p := FleePoint(old(w.wolf), w.rng.source, old(w.rng.next));
      && w.wolf == old(w.wolf).(randomTargetTile := w.wolf.randomTargetTile, sheepToHunt := w.wolf.sheepToHunt)
      && w.wolf.sheepToHunt == (if nearby then -1 else old(w.wolf).sheepToHunt)
      && w.wolf.randomTargetTile ==
           (if tooClose then w.grid.PositionToTile(w.herder.position)
            else if nearby then ClampedTile(w.grid, p.0, p.1)
            else old(w.wolf).randomTargetTile)
      && w.rng.next == old(w.rng.next) + (if nearby then 2 else 0)
    ensures w.sheep == old(w.sheep) && w.herder == old(w.herder) && w.running == old(w.running)
  {
    var wolf := w.wolf;
    if w.IsHerderNearby(w.grid.PositionToTile(wolf.position)) {
      var box := W.HerderFleeBox(wolf, wolf.position);
      ghost var first := w.rng.next;
      var x := w.rng.GetRandomValue(TruncToInt(box.0.x), TruncToInt(box.1.x));
      var y := w.rng.GetRandomValue(TruncToInt(box.0.y), TruncToInt(box.1.y));
      FleeTileOfDraws(w.grid, wolf, w.rng.source, first, x, y);
      w.wolf := wolf.(sheepToHunt := -1, randomTargetTile := ClampedTile(w.grid, x, y));
    }
    if w.IsHerderTooClose(w.grid.PositionToTile(w.wolf.position)) {
      w.wolf := w.wolf.(randomTargetTile := w.grid.PositionToTile(w.herder.position));
    }
  }

  /** The prey lookup of the Hungry case of `Wolf::Sense`, made only without prey
      and with the herder away. */
  method PickPrey(w: World)
    modifies w
    ensures var nearby := w.IsHerderNearby(w.grid.PositionToTile(w.wolf.position));
      && w.wolf == old(w.wolf).(sheepToHunt := w.wolf.sheepToHunt)
      && |w.sheep| == |old(w.sheep)|
      && (old(w.wolf).sheepToHunt == -1 && !nearby ==>
            && IsFirstPrey(w.wolf, old(w.sheep), w.wolf.sheepToHunt)
            && (forall k :: 0 <= k < |w.sheep| && (w.wolf.sheepToHunt == -1 || k < w.wolf.sheepToHunt) ==>
                  w.sheep[k] == old(w.sheep)[k].(isBeingHunted := false))
            && (forall k :: w.wolf.sheepToHunt != -1 && w.wolf.sheepToHunt <= k < |w.sheep| ==>
                  w.sheep[k] == old(w.sheep)[k]))
      && (!(old(w.wolf).sheepToHunt == -1 && !nearby) ==>
            w.wolf == old(w.wolf) && w.sheep == old(w.sheep))
    ensures w.herder == old(w.herder) && w.running == old(w.running)
  {
    if w.wolf.sheepToHunt == -1 && !w.IsHerderNearby(w.grid.PositionToTile(w.wolf.position)) {
      var h := w.ReturnSheepToEat();
      w.wolf := w.wolf.(sheepToHunt := h);
    }
  }

  /** The path searches of the Hungry case of `Wolf::Sense`: to the prey's tile when
      the prey index passes `isSheepValid`, and, without prey, to a target tile on
      the grid. */
  method SearchHuntPath(w: World)
    requires w.Valid()
    modifies w
    ensures var v := old(w.wolf); var h := v.sheepToHunt; var start := w.grid.PositionToTile(v.position);
      && w.wolf == v.(path := w.wolf.path)
      && (IsSheepIndexValid(|w.sheep|, h) && h < |w.sheep| ==>
            SearchResult(w.grid, w.ground[..], start, w.grid.PositionToTile(w.sheep[h].position), w.wolf.path))
      && (h == -1 && w.grid.IsValidCoord(v.randomTargetTile) ==>
            SearchResult(w.grid, w.ground[..], start, v.randomTargetTile, w.wolf.path))
      && (!(IsSheepIndexValid(|w.sheep|, h) && h < |w.sheep|) && !(h == -1 && w.grid.IsValidCoord(v.randomTargetTile)) ==>
            w.wolf.path == v.path)
      && SensedPath(w.grid, w.ground[..], start, v.path, w.wolf.path)
    ensures w.sheep == old(w.sheep) && w.herder == old(w.herder) && w.running == old(w.running)
  {
    var h := w.wolf.sheepToHunt;
    var start := w.grid.PositionToTile(w.wolf.position);
    if w.IsSheepValid(h) && h < |w.sheep| {
      var found, path := AStarPathFinding(w.grid, w.ground[..], start, w.grid.PositionToTile(w.sheep[h].position),
                                          w.heuristic);
      SearchResultIsSensed(w.grid, w.ground[..], start, w.grid.PositionToTile(w.sheep[h].position), w.wolf.path, path);
      w.wolf := w.wolf.(path := path);
    }
    if w.wolf.sheepToHunt == -1 && w.grid.IsValidCoord(w.wolf.randomTargetTile) {
      var found, path := AStarPathFinding(w.grid, w.ground[..], start, w.wolf.randomTargetTile, w.heuristic);
      SearchResultIsSensed(w.grid, w.ground[..], start, w.wolf.randomTargetTile, old(w.wolf).path, path);
      w.wolf := w.wolf.(path := path);
    }
  }

  /** The Hungry case of `Wolf::Sense`. */
  method SenseHungry(w: World)
    requires w.Valid()
    modifies w, w.rng
    ensures var v := old(w.wolf); var c := w.grid.PositionToTile(v.position);
      var nearby := old(w.IsHerderNearby(c)); var tooClose := old(w.IsHerderTooClose(c));
      && w.wolf == v.(randomTargetTile := w.wolf.randomTargetTile, sheepToHunt := w.wolf.sheepToHunt,
                      path := w.wolf.path)
      && w.wolf.randomTargetTile == SensedTarget(v, w.grid, nearby, tooClose, w.grid.PositionToTile(w.herder.position),
                                                 w.rng.source, old(w.rng.next))
      && w.rng.next == old(w.rng.next) + Draws(v, w.grid, nearby)
      && PreySensed(v, old(w.sheep), nearby, w.wolf, w.sheep)
      && HuntPathSensed(w.grid, w.ground[..], c, w.sheep, v.path, w.wolf)
      && |w.sheep| == |old(w.sheep)|
      && (forall k :: 0 <= k < |w.sheep| ==> w.sheep[k] == old(w.sheep)[k].(isBeingHunted := w.sheep[k].isBeingHunted))
      && SensedPath(w.grid, w.ground[..], c, v.path, w.wolf.path)
    ensures w.herder == old(w.herder) && w.running == old(w.running)
  {
    ghost var v := w.wolf;
    ghost var c := w.grid.PositionToTile(v.position);
    ghost var nearby := w.IsHerderNearby(c);
    TargetAndFlee(w);
    ghost var sheep0 := w.sheep;
    PickPrey(w);
    assert w.wolf.position == v.position;
    ghost var picked := w.wolf;
    SearchHuntPath(w);
    assert w.wolf == picked.(path := w.wolf.path);
    assert nearby ==> picked.sheepToHunt == -1 && w.sheep == sheep0;
    assert PreySensed(v, sheep0, nearby, picked, w.sheep);
  }

  /** The target part of the Hungry case of `Wolf::Sense`: the target tile is the
      one SensedTarget chooses, and a nearby herder cancels the prey. */
  method TargetAndFlee(w: World)
    requires w.Valid()
    modifies w, w.rng
    ensures var v := old(w.wolf); var c := w.grid.PositionToTile(v.position);
      var nearby := old(w.IsHerderNearby(c)); var tooClose := old(w.IsHerderTooClose(c));
      && w.wolf == v.(randomTargetTile := w.wolf.randomTargetTile, sheepToHunt := w.wolf.sheepToHunt)
      && w.wolf.randomTargetTile == SensedTarget(v, w.grid, nearby, tooClose, w.grid.PositionToTile(w.herder.position),
                                                 w.rng.source, old(w.rng.next))
      && w.rng.next == old(w.rng.next) + Draws(v, w.grid, nearby)
      && w.wolf.sheepToHunt == (if nearby then -1 else v.sheepToHunt)
    ensures w.sheep == old(w.sheep) && w.herder == old(w.herder) && w.running == old(w.running)
  {
    ghost var v := w.wolf;
    ghost var first := w.rng.next;
    RetargetIfNeeded(w);
    SensedTargetInTwoSteps(v, w.wolf, w.grid, w.IsHerderNearby(w.grid.PositionToTile(v.position)),
                           w.IsHerderTooClose(w.grid.PositionToTile(v.position)),
                           w.grid.PositionToTile(w.herder.position), w.rng.source, first);
    ReactToHerder(w);
  }

  /** SensedTarget split at the retargeting: the flee tile is drawn for the wolf that
      already holds its new wandering target, after the draws that target took. */
  lemma SensedTargetInTwoSteps(v: W.Wolf, mid: W.Wolf, g: Grid, nearby: bool, tooClose: bool, herderTile: Point,
                               source: nat -> nat, first: nat)
    requires g.WellFormed() && 0 <= g.offset.x && 0 <= g.offset.y
    requires mid == v.(randomTargetTile := mid.randomTargetTile)
    requires NeedsNewTarget(v, g) ==>
      mid.randomTargetTile == RandomTileNear(g, v.position, W.MAX_WANDERING_DISTANCE, source, first)
    requires !NeedsNewTarget(v, g) ==> mid.randomTargetTile == v.randomTargetTile
    ensures var p := FleePoint(mid, source, first + (if NeedsNewTarget(v, g) then 2 else 0));
      SensedTarget(v, g, nearby, tooClose, herderTile, source, first) ==
        (if tooClose then herderTile else if nearby then ClampedTile(g, p.0, p.1) else mid.randomTargetTile)
  {
    var f := first + (if NeedsNewTarget(v, g) then 2 else 0);
    assert W.HerderFleeBox(mid, mid.position) == W.HerderFleeBox(v, v.position);
    assert FleePoint(mid, source, f) == FleePoint(v, source, f);
  }

  /** The Satiated case of `Wolf::Sense`: a path to the tile of the sleeping
      position. */
  method SenseSatiated(w: World)
    requires w.Valid()
    modifies w
    ensures w.wolf == old(w.wolf).(path := w.wolf.path)
    ensures SearchResult(w.grid, w.ground[..], w.grid.PositionToTile(old(w.wolf).position),
                         w.grid.PositionToTile(old(w.wolf).sleepingPosition), w.wolf.path)
    ensures w.sheep == old(w.sheep) && w.herder == old(w.herder) && w.running == old(w.running)
  {
    var found, path := AStarPathFinding(w.grid, w.ground[..], w.grid.PositionToTile(w.wolf.position),
                                        w.grid.PositionToTile(w.wolf.sleepingPosition), w.heuristic);
    w.wolf := w.wolf.(path := path);
  }

  /** `Wolf::Sense`, dispatched on the state; asleep, the wolf senses nothing. */
  method Sense(w: World)
    requires w.Valid()
    modifies w, w.rng
    ensures var v := old(w.wolf);
      && w.wolf == v.(randomTargetTile := w.wolf.randomTargetTile, sheepToHunt := w.wolf.sheepToHunt,
                      path := w.wolf.path)
      && (v.state != W.Hungry ==> w.wolf == v.(path := w.wolf.path) && w.rng.next == old(w.rng.next))
      && (v.state == W.Asleep ==> w.wolf == v)
      && |w.sheep| == |old(w.sheep)|
      && (forall k :: 0 <= k < |w.sheep| ==> w.sheep[k] == old(w.sheep)[k].(isBeingHunted := w.sheep[k].isBeingHunted))
      && SensedPath(w.grid, w.ground[..], w.grid.PositionToTile(v.position), v.path, w.wolf.path)
    ensures var c := w.grid.PositionToTile(old(w.wolf).position);
      Sensed(old(w.wolf), old(w.sheep), w.grid, w.ground[..], old(w.IsHerderNearby(c)), old(w.IsHerderTooClose(c)),
             w.grid.PositionToTile(w.herder.position), w.rng.source, old(w.rng.next), w.wolf, w.sheep, w.rng.next)
    ensures w.herder == old(w.herder) && w.running == old(w.running)
  {
    match w.wolf.state
    case Hungry => SenseHungry(w);
    case Satiated =>
      SenseSatiated(w);
      SearchResultIsSensed(w.grid, w.ground[..], w.grid.PositionToTile(old(w.wolf).position),
                           w.grid.PositionToTile(old(w.wolf).sleepingPosition), old(w.wolf).path, w.wolf.path);
    case Asleep =>
  }

  /** `Wolf::HuntSheep` followed by the eating test and `Wolf::EatSheep`. */
  method HuntAndEat(w: World)
    modifies w
    ensures (w.wolf, w.sheep) == Hunt(old(w.wolf), old(w.sheep), w.grid, w.normalize)
    ensures w.herder == old(w.herder) && w.running == old(w.running)
  {
    var h := w.wolf.sheepToHunt;
    if w.IsSheepValid(h) {
      w.wolf := W.TraverseUsingPath(w.wolf.(velocity := W.RUNNING_SPEED), w.grid, w.normalize);
    }
    var touching := w.CanSheepBeEaten(h);
    if touching {
      w.EatSheep(h);
      w.wolf := W.EatSheep(w.wolf);
    }
  }

  /** The Hungry case of `Wolf::Think`. */
  method ThinkWhenHungry(w: World)
    requires w.Valid()
    modifies w
    ensures var c := w.grid.PositionToTile(old(w.wolf).position);
      (w.wolf, w.sheep, w.herder) ==
        ThinkHungry(old(w.wolf), old(w.sheep), old(w.herder), w.grid, w.normalize,
                    old(w.IsHerderNearby(c)), old(w.IsHerderTooClose(c)))
    ensures w.running == old(w.running)
  {
    var c := w.grid.PositionToTile(w.wolf.position);
    if w.IsHerderNearby(c) {
      w.wolf := w.wolf.(velocity := W.RUNNING_SPEED);
    } else {
      w.wolf := w.wolf.(velocity := W.WALKING_SPEED);
    }
    if w.IsHerderTooClose(c) {
      w.AttackHerder();
      w.wolf := W.AttackHerder(w.wolf);
      return;
    }
    if w.wolf.sheepToHunt == -1 && w.grid.IsValidCoord(w.wolf.randomTargetTile) {
      w.wolf := W.Wander(w.wolf, w.grid, w.normalize);
    }
    if w.wolf.timeBetweenEating < W.DELAY_BETWEEN_EATING {
      return;
    }
    HuntAndEat(w);
  }

  /** `Wolf::Think`, dispatched on the state. */
  method Think(w: World)
    requires w.Valid()
    modifies w
    ensures var c := w.grid.PositionToTile(old(w.wolf).position);
      (w.wolf, w.sheep, w.herder) ==
        ThinkOutcome(old(w.wolf), old(w.sheep), old(w.herder), w.grid, w.normalize,
                     old(w.IsHerderNearby(c)), old(w.IsHerderTooClose(c)))
    ensures w.running == old(w.running)
  {
    match w.wolf.state
    case Hungry => ThinkWhenHungry(w);
    case Satiated => w.wolf := ThinkSatiated(w.wolf, w.grid, w.normalize);
    case Asleep => w.wolf := W.ThinkAsleep(w.wolf);
  }

  /** A cadence timer's step in `Wolf::update`: Update, and Reset once done. */
  function Tick(t: T.Timer, dt: real): T.Timer
  {
    var u := T.Update(t, dt);
    if T.IsDone(u) then T.Reset(u) else u
  }

  /** The sense cadence of `Wolf::update` on values: the sense timer ticks; once it
      is done, Sense runs on the wolf holding the reset timer, and otherwise nothing
      else changes and no value is drawn. */
  ghost predicate SenseTicked(v: W.Wolf, sheep: seq<S.Sheep>, g: Grid, ground: seq<Ground>, nearby: bool,
                              tooClose: bool, herderTile: Point, source: nat -> nat, first: nat, dt: real,
                              r: W.Wolf, sheep': seq<S.Sheep>, next: nat)
    requires g.WellFormed() && 0 <= g.offset.x && 0 <= g.offset.y && |ground| == g.Count()
  {
    var t := v.(senseTimer := Tick(v.senseTimer, dt));
    if T.IsDone(T.Update(v.senseTimer, dt)) then
      Sensed(t, sheep, g, ground, nearby, tooClose, herderTile, source, first, r, sheep', next)
    else r == t && sheep' == sheep && next == first
  }

  /** The think cadence of `Wolf::update` on values: the think timer ticks; once it
      is done, Think runs on the wolf holding the reset timer. */
  function ThinkTicked(v: W.Wolf, sheep: seq<S.Sheep>, herder: H.Herder, g: Grid, normalize: Vector2 -> Vector2,
                       nearby: bool, tooClose: bool, dt: real): (W.Wolf, seq<S.Sheep>, H.Herder)
  {
    var t := v.(thinkTimer := Tick(v.thinkTimer, dt));
    if T.IsDone(T.Update(v.thinkTimer, dt)) then ThinkOutcome(t, sheep, herder, g, normalize, nearby, tooClose)
    else (t, sheep, herder)
  }

  /** `Wolf::update`: Sense when the sense timer is done (giving `sensed` and
      `sensedSheep`), Think when the think timer is done (giving `thought`), and Act
      every time. The herder tests are those of the wolf's tile, which Sense does not
      move. Besides, the state moves along the cycle Hungry, Satiated, Asleep; the
      number of sheep stays the same and a sheep changes only in its hunted flag and
      its health, which only the wolf's bite takes; the herder can only be stunned. */
  method Update(w: World, dt: real) returns (ghost sensed: W.Wolf, ghost sensedSheep: seq<S.Sheep>,
                                             ghost thought: W.Wolf)
    requires w.Valid()
    modifies w, w.rng
    ensures var v := old(w.wolf); var c := w.grid.PositionToTile(v.position);
      var nearby := old(w.IsHerderNearby(c)); var tooClose := old(w.IsHerderTooClose(c));
      && SenseTicked(v, old(w.sheep), w.grid, w.ground[..], nearby, tooClose, w.grid.PositionToTile(old(w.herder).position),
                     w.rng.source, old(w.rng.next), dt, sensed, sensedSheep, w.rng.next)
      && (thought, w.sheep, w.herder) == ThinkTicked(sensed, sensedSheep, old(w.herder), w.grid, w.normalize,
                                                     nearby, tooClose, dt)
      && w.wolf == W.Act(thought, dt)
    ensures var v := old(w.wolf); var r := w.wolf;
      && |w.sheep| == |old(w.sheep)|
      && (forall k :: 0 <= k < |w.sheep| ==>
            w.sheep[k] == old(w.sheep)[k].(isBeingHunted := w.sheep[k].isBeingHunted, health := w.sheep[k].health)
            && (w.sheep[k].health == old(w.sheep)[k].health
                || w.sheep[k].health == S.TakeDamage(old(w.sheep)[k], S.MAX_HEALTH).health))
      && (w.herder == old(w.herder) || w.herder == old(w.herder).(isAttacked := true))
      && r.senseTimer == Tick(v.senseTimer, dt) && r.thinkTimer == Tick(v.thinkTimer, dt)
      && (v.state == W.Hungry ==> r.state == W.Hungry || r.state == W.Satiated)
      && (v.state == W.Satiated ==> r.state == W.Satiated || r.state == W.Asleep)
      && (v.state == W.Asleep ==> r.state == W.Asleep || r.state == W.Hungry)
      && (!T.IsDone(T.Update(v.thinkTimer, dt)) ==> r.state == v.state && w.herder == old(w.herder))
      && (!T.IsDone(T.Update(v.senseTimer, dt)) ==> w.rng.next == old(w.rng.next))
    ensures w.running == old(w.running)
  {
    SenseStep(w, dt);
    sensed, sensedSheep := w.wolf, w.sheep;
    ThinkStep(w, dt);
    thought := w.wolf;
    w.wolf := W.Act(w.wolf, dt);
  }

  /** The sense cadence of `Wolf::update`: the timer advances, and once done it is
      reset and Sense runs. */
  method SenseStep(w: World, dt: real)
    requires w.Valid()
    modifies w, w.rng
    ensures var v := old(w.wolf); var c := w.grid.PositionToTile(v.position);
      SenseTicked(v, old(w.sheep), w.grid, w.ground[..], old(w.IsHerderNearby(c)), old(w.IsHerderTooClose(c)),
                  w.grid.PositionToTile(w.herder.position), w.rng.source, old(w.rng.next), dt, w.wolf, w.sheep,
                  w.rng.next)
    ensures var v := old(w.wolf); var r := w.wolf;
      && r.senseTimer == Tick(v.senseTimer, dt) && r.thinkTimer == v.thinkTimer && r.state == v.state
      && r.position == v.position
      && |w.sheep| == |old(w.sheep)|
      && (forall k :: 0 <= k < |w.sheep| ==> w.sheep[k] == old(w.sheep)[k].(isBeingHunted := w.sheep[k].isBeingHunted))
      && (!T.IsDone(T.Update(v.senseTimer, dt)) ==> w.rng.next == old(w.rng.next))
    ensures w.herder == old(w.herder) && w.running == old(w.running)
  {
    w.wolf := w.wolf.(senseTimer := T.Update(w.wolf.senseTimer, dt));
    if T.IsDone(w.wolf.senseTimer) {
      w.wolf := w.wolf.(senseTimer := T.Reset(w.wolf.senseTimer));
      Sense(w);
    }
  }

  /** The think cadence of `Wolf::update`: the timer advances, and once done it is
      reset and Think runs. */
  method ThinkStep(w: World, dt: real)
    requires w.Valid()
    modifies w
    ensures var c := w.grid.PositionToTile(old(w.wolf).position);
      (w.wolf, w.sheep, w.herder) == ThinkTicked(old(w.wolf), old(w.sheep), old(w.herder), w.grid, w.normalize,
                                                 old(w.IsHerderNearby(c)), old(w.IsHerderTooClose(c)), dt)
    ensures var v := old(w.wolf); var r := w.wolf;
      && r.thinkTimer == Tick(v.thinkTimer, dt) && r.senseTimer == v.senseTimer
      && |w.sheep| == |old(w.sheep)|
      && (forall k :: 0 <= k < |w.sheep| ==>
            w.sheep[k] == old(w.sheep)[k].(isBeingHunted := w.sheep[k].isBeingHunted, health := w.sheep[k].health)
            && (w.sheep[k].health == old(w.sheep)[k].health
                || w.sheep[k].health == S.TakeDamage(old(w.sheep)[k], S.MAX_HEALTH).health))
      && (w.herder == old(w.herder) || w.herder == old(w.herder).(isAttacked := true))
      && (v.state == W.Hungry ==> r.state == W.Hungry || r.state == W.Satiated)
      && (v.state == W.Satiated ==> r.state == W.Satiated || r.state == W.Asleep)
      && (v.state == W.Asleep ==> r.state == W.Asleep || r.state == W.Hungry)
      && (!T.IsDone(T.Update(v.thinkTimer, dt)) ==> r.state == v.state && w.herder == old(w.herder)
                                                      && w.sheep == old(w.sheep))
    ensures w.running == old(w.running)
  {
    w.wolf := w.wolf.(thinkTimer := T.Update(w.wolf.thinkTimer, dt));
    if T.IsDone(w.wolf.thinkTimer) {
      w.wolf := w.wolf.(thinkTimer := T.Reset(w.wolf.thinkTimer));
      ghost var v, sheep, herder := w.wolf, w.sheep, w.herder;
      ghost var c := w.grid.PositionToTile(v.position);
      ghost var nearby, tooClose := w.IsHerderNearby(c), w.IsHerderTooClose(c);
      Think(w);
      StateCycle(v, sheep, herder, w.grid, w.normalize, nearby, tooClose);
      if v.state == W.Hungry {
        ThinkHungryEffect(v, sheep, herder, w.grid, w.normalize, nearby, tooClose);
      }
    }
  }
}
