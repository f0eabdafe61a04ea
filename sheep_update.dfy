/** The members of `sim::Sheep` that reach into the world: eating the grass cell,
    dropping manure, resetting or claiming a mate, spawning a lamb, choosing target
    tiles and searching paths, and the `update` that drives Sense, Think and Act.
    Sheep `i` is `w.sheep[i]`; the address comparison the source makes against
    `this` is a comparison of indices. */
module SheepBehaviour {
  import opened Geometry
  import opened TileGrid
  import opened Random
  import opened GroundLayer
  import opened PathFinding
  import opened WorldModel
  import T = Timers
  import G = GrassLayer
  import M = ManureLayer
  import S = SheepAgent

  // ---------------------------------------------------------------------------
  // The vector of sheep, as the world-touching members leave it

  /** `ResetSheepMate` on sheep `m` when `isSheepValid(m)` accepts it. */
  function ResetValidMate(sheep: seq<S.Sheep>, m: int): (r: seq<S.Sheep>)
    ensures |r| == |sheep|
  {
    if IsSheepIndexValid(|sheep|, m) && m < |sheep| then sheep[m := S.ResetMate(sheep[m])] else sheep
  }

  /** The vector after `Sheep::KillSheep` on sheep `i`. */
  function Killed(sheep: seq<S.Sheep>, i: int): (r: seq<S.Sheep>)
    requires 0 <= i < |sheep|
    ensures |r| == |sheep|
  {
    ResetValidMate(sheep[i := S.Kill(sheep[i])], sheep[i].sheepToMate)
  }

  /** Killing sheep i marks it dead with age 0 and resets its mate, if it has one,
      to Satiated; no other sheep changes. */
  lemma KillEffect(sheep: seq<S.Sheep>, i: int)
    requires 0 <= i < |sheep| <= SIZE_MAX && sheep[i].sheepToMate != i
    ensures var r := Killed(sheep, i); var m := sheep[i].sheepToMate;
      && r[i] == sheep[i].(isAlive := false, age := 0.0)
      && (0 <= m < |sheep| ==> r[m] == S.ResetMate(sheep[m]) && r[m].state == S.Satiated)
      && forall k :: 0 <= k < |sheep| && k != i && k != m ==> r[k] == sheep[k]
  {
  }

  /** The vector after `Sheep::Reproduce` by sheep `i` with mate `m`: the mate is
      reset, the sheep returns to Satiated, and one lamb is appended at the
      sheep's position. */
  function Reproduced(sheep: seq<S.Sheep>, i: int, m: int): (r: seq<S.Sheep>)
    requires 0 <= i < |sheep| && 0 <= m < |sheep|
    ensures |r| == |sheep| + 1
  {
    var reset := sheep[m := S.ResetMate(sheep[m])];
    reset[i := S.AfterReproducing(reset[i])] + [S.NewSheep(reset[i].position)]
  }

  /** The vector after `Sheep::RunAway` by sheep `i`. */
  function RanAway(sheep: seq<S.Sheep>, i: int, g: Grid, normalize: Vector2 -> Vector2): (r: seq<S.Sheep>)
    requires 0 <= i < |sheep|
    ensures |r| == |sheep|
  {
    var fled := ResetValidMate(sheep[i := S.Flee(sheep[i])], sheep[i].sheepToMate);
    fled[i := S.TraverseUsingPath(fled[i], g, normalize)]
  }

  /** The Afraid case of `Sheep::Think`: run away while the target tile is on the
      grid. */
  function ThinkAfraid(sheep: seq<S.Sheep>, i: int, g: Grid, normalize: Vector2 -> Vector2): (r: seq<S.Sheep>)
    requires 0 <= i < |sheep|
    ensures |r| == |sheep|
  {
    if g.IsValidCoord(sheep[i].randomTargetTile) then RanAway(sheep, i, g, normalize) else sheep
  }

  /** The Reproducing case of `Sheep::Think`: a sheep that is itself claimed as a
      mate drops its target; one without a mate wanders; one whose mate cannot mate
      gives it up; otherwise it claims the mate, runs towards it and reproduces once
      in range. */
  function ThinkReproducing(sheep: seq<S.Sheep>, i: int, g: Grid, normalize: Vector2 -> Vector2): seq<S.Sheep>
    requires 0 <= i < |sheep|
  {
    var s := sheep[i];
    var m := s.sheepToMate;
    if s.isMatedWith then sheep[i := s.(randomTargetTile := NoTile)]
    else if m == -1 then
      (if g.IsValidCoord(s.randomTargetTile) then sheep[i := S.Wander(s, g, normalize)] else sheep)
    else if !CanSheepMate(sheep, m) then sheep[i := S.GiveUpMate(s, IsSheepIndexValid(|sheep|, m))]
    else
      var claimed := sheep[m := S.SetAsMate(sheep[m], normalize)];
      var going := claimed[i := S.GoTowardsMate(claimed[i], g, normalize)];
      if InMatingRange(going[m], going[i].position) then Reproduced(going, i, m) else going
  }

  /** Whether Think in Reproducing ends in reproduction: the sheep is not itself
      claimed, its mate can mate, and the two are in mating range. */
  predicate Mates(sheep: seq<S.Sheep>, i: int)
    requires 0 <= i < |sheep|
  {
    var s := sheep[i];
    !s.isMatedWith && s.sheepToMate != -1 && CanSheepMate(sheep, s.sheepToMate)
    && InMatingRange(sheep[s.sheepToMate], s.position)
  }

  /** Reproduction appends exactly one lamb, a fresh sheep at the parent's position,
      and only when the two mate; both parents end Satiated without a mate and the
      parent can no longer reproduce. */
  lemma ThinkReproducingEffect(sheep: seq<S.Sheep>, i: int, g: Grid, normalize: Vector2 -> Vector2)
    requires 0 <= i < |sheep| && sheep[i].sheepToMate != i
    ensures var r := ThinkReproducing(sheep, i, g, normalize); var s := sheep[i]; var m := s.sheepToMate;
      && |r| == (if Mates(sheep, i) then |sheep| + 1 else |sheep|)
      && (Mates(sheep, i) ==>
            && r[|sheep|] == S.NewSheep(s.position)
            && r[m].state == S.Satiated && !r[m].isMatedWith && !r[m].canReproduce
            && r[i].state == S.Satiated && r[i].sheepToMate == -1 && !r[i].canReproduce)
  {
    var s := sheep[i];
    var m := s.sheepToMate;
    var r := ThinkReproducing(sheep, i, g, normalize);
    if s.isMatedWith {
      assert r == sheep[i := s.(randomTargetTile := NoTile)];
    } else if m == -1 {
      var wandered := if g.IsValidCoord(s.randomTargetTile) then S.Wander(s, g, normalize) else s;
      assert wandered == s.(path := wandered.path, targetPosition := wandered.targetPosition,
                            direction := wandered.direction);
      assert r == sheep[i := wandered];
    } else if !CanSheepMate(sheep, m) {
      S.GiveUpMateEffect(s, IsSheepIndexValid(|sheep|, m));
      assert r == sheep[i := S.GiveUpMate(s, IsSheepIndexValid(|sheep|, m))];
    } else {
      var mate := S.SetAsMate(sheep[m], normalize);
      var claimed := sheep[m := mate];
      var runner := S.GoTowardsMate(s, g, normalize);
      assert runner == s.(velocity := S.RUNNING_SPEED, path := runner.path,
                          targetPosition := runner.targetPosition, direction := runner.direction);
      var going := claimed[i := runner];
      assert going[m] == mate && going[i] == runner;
      assert SameBody(mate, sheep[m]);
      if InMatingRange(mate, s.position) {
        assert r == Reproduced(going, i, m);
        assert r[m] == S.ResetMate(mate);
        assert r[i] == S.AfterReproducing(runner);
      } else {
        assert r == going;
      }
    }
  }

  /** Whatever Think in Reproducing does, the sheep does not move, keeps its health,
      life, age and timers and is never its own mate; no sheep but its mate changes,
      and the mate keeps its position, health, age, life, path, own mate and timers. */
  lemma ThinkReproducingKeeps(sheep: seq<S.Sheep>, i: int, g: Grid, normalize: Vector2 -> Vector2)
    requires 0 <= i < |sheep| && sheep[i].sheepToMate != i
    ensures var r := ThinkReproducing(sheep, i, g, normalize); var s := sheep[i]; var m := s.sheepToMate;
      && |r| >= |sheep|
      && r[i].position == s.position && r[i].health == s.health && r[i].isAlive == s.isAlive
      && r[i].age == s.age && r[i].senseTimer == s.senseTimer && r[i].thinkTimer == s.thinkTimer
      && r[i].sheepToMate != i
      && (forall k :: 0 <= k < |sheep| && k != i && k != m ==> r[k] == sheep[k])
      && (forall k :: 0 <= k < |sheep| && k != i ==> SameBody(r[k], sheep[k]))
  {
    var s := sheep[i];
    var m := s.sheepToMate;
    var r := ThinkReproducing(sheep, i, g, normalize);
    if s.isMatedWith {
      assert r == sheep[i := s.(randomTargetTile := NoTile)];
    } else if m == -1 {
      var wandered := if g.IsValidCoord(s.randomTargetTile) then S.Wander(s, g, normalize) else s;
      assert wandered == s.(path := wandered.path, targetPosition := wandered.targetPosition,
                            direction := wandered.direction);
      assert r == sheep[i := wandered];
    } else if !CanSheepMate(sheep, m) {
      S.GiveUpMateEffect(s, IsSheepIndexValid(|sheep|, m));
      assert r == sheep[i := S.GiveUpMate(s, IsSheepIndexValid(|sheep|, m))];
    } else {
      ClaimKeeps(sheep, i, g, normalize);
    }
  }

  /** The claiming branch of ThinkReproducingKeeps: the mate is claimed, the sheep
      runs towards it and, once in range, both reproduce. */
  lemma ClaimKeeps(sheep: seq<S.Sheep>, i: int, g: Grid, normalize: Vector2 -> Vector2)
    requires 0 <= i < |sheep| && sheep[i].sheepToMate != i
    requires !sheep[i].isMatedWith && sheep[i].sheepToMate != -1 && CanSheepMate(sheep, sheep[i].sheepToMate)
    ensures var r := ThinkReproducing(sheep, i, g, normalize); var s := sheep[i]; var m := s.sheepToMate;
      && |r| >= |sheep|
      && r[i].position == s.position && r[i].health == s.health && r[i].isAlive == s.isAlive
      && r[i].age == s.age && r[i].senseTimer == s.senseTimer && r[i].thinkTimer == s.thinkTimer
      && r[i].sheepToMate != i
      && (forall k :: 0 <= k < |sheep| && k != i && k != m ==> r[k] == sheep[k])
      && (forall k :: 0 <= k < |sheep| && k != i ==> SameBody(r[k], sheep[k]))
  {
    var s := sheep[i];
    var m := s.sheepToMate;
    var r := ThinkReproducing(sheep, i, g, normalize);
    var mate := S.SetAsMate(sheep[m], normalize);
    var claimed := sheep[m := mate];
    var runner := S.GoTowardsMate(s, g, normalize);
    assert runner == s.(velocity := S.RUNNING_SPEED, path := runner.path,
                        targetPosition := runner.targetPosition, direction := runner.direction);
    var going := claimed[i := runner];
    assert going[m] == mate && going[i] == runner;
    assert SameBody(mate, sheep[m]);
    if InMatingRange(mate, s.position) {
      var reset := going[m := S.ResetMate(mate)];
      assert r == reset[i := S.AfterReproducing(runner)] + [S.NewSheep(runner.position)];
      assert r[m] == S.ResetMate(mate);
      assert r[i] == S.AfterReproducing(runner);
      assert SameBody(r[m], sheep[m]);
      assert forall k :: 0 <= k < |sheep| && k != i && k != m ==> r[k] == sheep[k];
    } else {
      assert r == going;
    }
  }

  /** A sheep that has entered Afraid never leaves it through its own Think, whose
      Afraid case only runs away; Act never changes the state either. */
  lemma AfraidIsNeverLeft(sheep: seq<S.Sheep>, i: int, g: Grid, normalize: Vector2 -> Vector2, dt: real)
    requires 0 <= i < |sheep| && sheep[i].state == S.Afraid && sheep[i].sheepToMate != i
    ensures ThinkAfraid(sheep, i, g, normalize)[i].state == S.Afraid
    ensures S.Act(ThinkAfraid(sheep, i, g, normalize)[i], dt).state == S.Afraid
  {
  }

  /** Running away leaves the sheep running and unable to reproduce, resets its mate
      if it has one, and changes no other sheep. */
  lemma RanAwayEffect(sheep: seq<S.Sheep>, i: int, g: Grid, normalize: Vector2 -> Vector2)
    requires 0 <= i < |sheep| && sheep[i].sheepToMate != i
    ensures var r := RanAway(sheep, i, g, normalize); var m := sheep[i].sheepToMate;
      && !r[i].canReproduce && r[i].velocity == S.RUNNING_SPEED && !r[i].isMatedWith
      && r[i].state == sheep[i].state && r[i].position == sheep[i].position && r[i].health == sheep[i].health
      && r[i].isAlive == sheep[i].isAlive && r[i].age == sheep[i].age && r[i].sheepToMate == sheep[i].sheepToMate
      && r[i].senseTimer == sheep[i].senseTimer && r[i].thinkTimer == sheep[i].thinkTimer
      && (0 <= m < |sheep| <= SIZE_MAX ==> r[m] == S.ResetMate(sheep[m]))
      && (forall k :: 0 <= k < |sheep| && k != i && k != m ==> r[k] == sheep[k])
      && (forall k :: 0 <= k < |sheep| && k != i ==> SameBody(r[k], sheep[k]))
  {
  }

  /** The fields of another sheep that a sheep's update never changes: claiming and
      resetting a mate only touch its state, flags, speed, target and direction. */
  predicate SameBody(a: S.Sheep, b: S.Sheep)
  {
    && a.position == b.position && a.radius == b.radius && a.health == b.health && a.age == b.age
    && a.isAlive == b.isAlive && a.path == b.path && a.sheepToMate == b.sheepToMate
    && a.senseTimer == b.senseTimer && a.thinkTimer == b.thinkTimer
  }

  /** `Sheep::Think` on the vector, dispatched on the state of sheep `i`; `edible`
      is the world's answer to whether the grass underneath can be eaten. */
  function ThinkOutcome(sheep: seq<S.Sheep>, i: int, g: Grid, normalize: Vector2 -> Vector2,
                        edible: bool, dt: real): seq<S.Sheep>
    requires 0 <= i < |sheep|
  {
    match sheep[i].state
    case Hungry => sheep[i := S.ThinkHungry(sheep[i], g, normalize, edible, dt)]
    case Satiated => sheep[i := S.ThinkSatiated(sheep[i], g, normalize)]
    case Reproducing => ThinkReproducing(sheep, i, g, normalize)
    case Afraid => ThinkAfraid(sheep, i, g, normalize)
  }

  /** Whatever the state, Think adds at most one sheep, a lamb at the parent's
      position and only by mating; it keeps the sheep alive or dead as it was, its
      age and timers, its health in range, Afraid once Afraid, and never makes it
      its own mate; every other sheep keeps its position, health, age, life, path,
      mate and timers. */
  lemma ThinkOutcomeEffect(sheep: seq<S.Sheep>, i: int, g: Grid, normalize: Vector2 -> Vector2,
                           edible: bool, dt: real)
    requires 0 <= i < |sheep| && sheep[i].sheepToMate != i
    ensures var r := ThinkOutcome(sheep, i, g, normalize, edible, dt); var s := sheep[i]; var n := |sheep|;
      && |r| == (if s.state == S.Reproducing && Mates(sheep, i) then n + 1 else n)
      && (|r| == n + 1 ==> r[n] == S.NewSheep(s.position))
      && r[i].isAlive == s.isAlive && r[i].age == s.age && r[i].sheepToMate != i
      && r[i].senseTimer == s.senseTimer && r[i].thinkTimer == s.thinkTimer
      && (s.state == S.Afraid ==> r[i].state == S.Afraid)
      && (S.HealthInRange(s) && dt >= 0.0 ==> S.HealthInRange(r[i]))
      && forall k :: 0 <= k < n && k != i ==> SameBody(r[k], sheep[k])
  {
    var s := sheep[i];
    var r := ThinkOutcome(sheep, i, g, normalize, edible, dt);
    match s.state
    case Hungry =>
      ThinkHungryKeeps(s, g, normalize, edible, dt);
      assert r == sheep[i := S.ThinkHungry(s, g, normalize, edible, dt)];
    case Satiated =>
      ThinkSatiatedKeeps(s, g, normalize);
      assert r == sheep[i := S.ThinkSatiated(s, g, normalize)];
    case Reproducing =>
      ThinkReproducingEffect(sheep, i, g, normalize);
      ThinkReproducingKeeps(sheep, i, g, normalize);
    case Afraid =>
      RanAwayEffect(sheep, i, g, normalize);
  }

  /** The Hungry case of Think keeps the sheep's life, age, mate and timers, and its
      health in range. */
  lemma ThinkHungryKeeps(s: S.Sheep, g: Grid, normalize: Vector2 -> Vector2, edible: bool, dt: real)
    ensures var r := S.ThinkHungry(s, g, normalize, edible, dt);
      && r.isAlive == s.isAlive && r.age == s.age && r.sheepToMate == s.sheepToMate
      && r.senseTimer == s.senseTimer && r.thinkTimer == s.thinkTimer
      && (S.HealthInRange(s) && dt >= 0.0 ==> S.HealthInRange(r))
  {
    var wandered := S.Wander(s, g, normalize);
    FeedKeeps(wandered, edible, dt);
  }

  /** The meal and the hunger damage of the Hungry case, applied to the sheep after
      it wandered: life, age, mate and timers are kept, and health stays in range. */
  lemma FeedKeeps(w: S.Sheep, edible: bool, dt: real)
    ensures var fed := if S.CanSheepEat(w) && edible then S.EatGrass(w) else w;
      var r := if fed.timeBetweenEating > S.EATING_GRACE && fed.timeBetweenEating >= S.TIME_BEFORE_DAMAGE
               then S.TakeDamage(fed, dt) else fed;
      && r.isAlive == w.isAlive && r.age == w.age && r.sheepToMate == w.sheepToMate
      && r.senseTimer == w.senseTimer && r.thinkTimer == w.thinkTimer
      && (S.HealthInRange(w) && dt >= 0.0 ==> S.HealthInRange(r))
  {
    var fed := if S.CanSheepEat(w) && edible then S.EatGrass(w) else w;
    if S.CanSheepEat(w) && edible {
      assert fed.timeBetweenEating == 0.0;
      if S.HealthInRange(w) && dt >= 0.0 {
        S.HealthStaysInRange(w, S.HEALTH_REGENERATION);
      }
    } else if S.HealthInRange(w) && dt >= 0.0 {
      S.HealthStaysInRange(w, dt);
    }
  }

  /** The Satiated case of Think keeps the sheep's life, age, health, mate and
      timers. */
  lemma ThinkSatiatedKeeps(s: S.Sheep, g: Grid, normalize: Vector2 -> Vector2)
    ensures var r := S.ThinkSatiated(s, g, normalize);
      && r.isAlive == s.isAlive && r.age == s.age && r.health == s.health && r.sheepToMate == s.sheepToMate
      && r.senseTimer == s.senseTimer && r.thinkTimer == s.thinkTimer
  {
    var wandered := if g.IsValidCoord(s.randomTargetTile) then S.Wander(s, g, normalize) else s;
    var r := S.ThinkSatiated(s, g, normalize);
    assert r == wandered.(state := S.Reproducing) || r == S.Defecate(wandered) || r == wandered;
  }

  // ---------------------------------------------------------------------------
  // Target tiles

  /** Whether Sense draws a new target tile: the current one is off the grid or has
      been reached (within the radius when Hungry, within the radius plus two
      pixels otherwise), or, when Hungry, has no live grass. */
  predicate NeedsNewTarget(s: S.Sheep, g: Grid, grass: seq<G.Grass>)
    requires |grass| == g.Count()
  {
    if s.state == S.Hungry then
      !g.IsValidCoord(s.randomTargetTile) || S.HasReachedTile(s, g, s.radius)
      || !G.HasGrassAt(g, grass, s.randomTargetTile)
    else !g.IsValidCoord(s.randomTargetTile) || S.HasReachedTile(s, g, s.radius + 2.0)
  }

  /** The whole-pixel point an Afraid sheep draws inside its flee box. */
  function FleePoint(s: S.Sheep, wolfPosition: Vector2, source: nat -> nat, first: nat): (int, int)
  {
    var box := S.FleeBox(s, wolfPosition);
    (RandomValue(source(first), TruncToInt(box.0.x), TruncToInt(box.1.x)),
     RandomValue(source(first + 1), TruncToInt(box.0.y), TruncToInt(box.1.y)))
  }

  /** The drawn flee point never lies on the wolf's side of the sheep on the x axis:
      right of the sheep when the wolf is left of it, left of it otherwise, and
      never more than FLEEING_RANGE away. */
  lemma FleePointAwayFromWolf(s: S.Sheep, wolfPosition: Vector2, source: nat -> nat, first: nat)
    ensures var x := FleePoint(s, wolfPosition, source, first).0;
      && (wolfPosition.x < s.position.x ==>
            TruncToInt(s.position.x) <= x <= TruncToInt(s.position.x + S.FLEEING_RANGE))
      && (wolfPosition.x >= s.position.x ==>
            TruncToInt(s.position.x - S.FLEEING_RANGE) <= x <= TruncToInt(s.position.x))
  {
    var box := S.FleeBox(s, wolfPosition);
    TruncMonotone(box.0.x, box.1.x);
  }

  lemma TruncMonotone(a: real, b: real)
    requires a <= b
    ensures TruncToInt(a) <= TruncToInt(b)
  {
  }

  /** The target tile Sense leaves: the current one when it need not change,
      otherwise a tile drawn within GRASS_HUNTING_RANGE, or, when Afraid, the tile
      of the flee point, both clamped to the world. */
  function SensedTarget(s: S.Sheep, g: Grid, grass: seq<G.Grass>, wolfPosition: Vector2,
                        source: nat -> nat, first: nat): Point
    requires |grass| == g.Count() && g.WellFormed() && 0 <= g.offset.x && 0 <= g.offset.y
  {
    if !NeedsNewTarget(s, g, grass) then s.randomTargetTile
    else if s.state == S.Afraid then
      var p := FleePoint(s, wolfPosition, source, first);
      ClampedTile(g, p.0, p.1)
    else RandomTileNear(g, s.position, S.GRASS_HUNTING_RANGE, source, first)
  }

  /** Sense keeps a target only while it is a valid tile (with grass, when Hungry)
      that has not been reached; a new one lies within one tile past the grid on the
      right and bottom and within the offset's tiles on the left and top. */
  lemma SensedTargetBounds(s: S.Sheep, g: Grid, grass: seq<G.Grass>, wolfPosition: Vector2,
                           source: nat -> nat, first: nat)
    requires |grass| == g.Count() && g.WellFormed() && 0 <= g.offset.x && 0 <= g.offset.y
    ensures var t := SensedTarget(s, g, grass, wolfPosition, source, first);
      && (!NeedsNewTarget(s, g, grass) ==> t == s.randomTargetTile && g.IsValidCoord(t))
      && (!NeedsNewTarget(s, g, grass) && s.state == S.Hungry ==> G.HasGrassAt(g, grass, t))
      && (NeedsNewTarget(s, g, grass) ==>
            -(g.offset.x / TILE_SIZE) <= t.x <= g.size.x && -(g.offset.y / TILE_SIZE) <= t.y <= g.size.y)
  {
  }

  /** `ReturnMatingSheep`'s answer for sheep `self`: -1 or the least other mate
      candidate. */
  predicate IsFirstMate(sheep: seq<S.Sheep>, self: int, r: int)
  {
    && (r == -1 || (0 <= r < |sheep| && r != self && IsMateCandidate(sheep[r])))
    && forall k :: 0 <= k < |sheep| && k != self && (r == -1 || k < r) ==> !IsMateCandidate(sheep[k])
  }

  // ---------------------------------------------------------------------------
  // Sense and the update cadences, as relations on values (the path search is a
  // relation, not a function)

  /** The path the Hungry, Satiated and Afraid cases of `Sheep::Sense` leave a sheep
      `r` that holds its target tile: the search result to that tile when it is on
      the grid, the path it had otherwise. */
  ghost predicate TargetPathSensed(g: Grid, ground: seq<Ground>, start: Point, before: seq<Point>, r: S.Sheep)
    requires |ground| == g.Count()
  {
    && (g.IsValidCoord(r.randomTargetTile) ==> SearchResult(g, ground, start, r.randomTargetTile, r.path))
    && (!g.IsValidCoord(r.randomTargetTile) ==> r.path == before)
  }

  /** The mate and path the Reproducing case of `Sheep::Sense` leaves sheep `i` of
      `sheep` with, as `r`: a claimed sheep keeps both; otherwise a sheep without a
      mate takes the first candidate, and the path is the search result to the
      mate's tile when the mate index passes `isSheepValid`, the search result to the
      target tile when there is still no mate and that tile is on the grid, and the
      path it had otherwise. */
  ghost predicate MateSensed(g: Grid, ground: seq<Ground>, sheep: seq<S.Sheep>, i: int, r: S.Sheep)
    requires |ground| == g.Count() && 0 <= i < |sheep|
  {
    var s := sheep[i]; var m := r.sheepToMate; var start := g.PositionToTile(s.position);
    && (s.isMatedWith || s.sheepToMate != -1 ==> m == s.sheepToMate)
    && (!s.isMatedWith && s.sheepToMate == -1 ==> IsFirstMate(sheep, i, m))
    && (s.isMatedWith ==> r.path == s.path)
    && (!s.isMatedWith && IsSheepIndexValid(|sheep|, m) && m < |sheep| ==>
          SearchResult(g, ground, start, g.PositionToTile(sheep[m].position), r.path))
    && (!s.isMatedWith && m == -1 && g.IsValidCoord(r.randomTargetTile) ==>
          SearchResult(g, ground, start, r.randomTargetTile, r.path))
    && (!s.isMatedWith && !(IsSheepIndexValid(|sheep|, m) && m < |sheep|)
          && !(m == -1 && g.IsValidCoord(r.randomTargetTile)) ==>
          r.path == s.path)
  }

  /** `Sheep::Sense` on values for sheep `i`, reading the random source from draw
      `first` on and leaving `next` the first draw unused: only that sheep changes,
      and only in its target tile (SensedTarget's), its path and its mate, as
      TargetPathSensed or, when Reproducing, MateSensed says. */
  ghost predicate Sensed(sheep: seq<S.Sheep>, i: int, g: Grid, grass: seq<G.Grass>, ground: seq<Ground>,
                         wolfPosition: Vector2, source: nat -> nat, first: nat, sheep': seq<S.Sheep>, next: nat)
    requires 0 <= i < |sheep| && |grass| == g.Count() && |ground| == g.Count()
    requires g.WellFormed() && 0 <= g.offset.x && 0 <= g.offset.y
  {
    var s := sheep[i];
    && |sheep'| == |sheep| && sheep' == sheep[i := sheep'[i]]
    && sheep'[i] == s.(randomTargetTile := sheep'[i].randomTargetTile, path := sheep'[i].path,
                       sheepToMate := sheep'[i].sheepToMate)
    && sheep'[i].randomTargetTile == SensedTarget(s, g, grass, wolfPosition, source, first)
    && next == first + (if NeedsNewTarget(s, g, grass) then 2 else 0)
    && (s.state != S.Reproducing ==>
          sheep'[i].sheepToMate == s.sheepToMate
          && TargetPathSensed(g, ground, g.PositionToTile(s.position), s.path, sheep'[i]))
    && (s.state == S.Reproducing ==> MateSensed(g, ground, sheep, i, sheep'[i]))
  }

  /** The sense cadence of `Sheep::update` on values: the sense timer of sheep `i`
      ticks; once it is done, Sense runs with the reset timer, and otherwise nothing
      else changes and no value is drawn. */
  ghost predicate SenseTicked(sheep: seq<S.Sheep>, i: int, g: Grid, grass: seq<G.Grass>, ground: seq<Ground>,
                              wolfPosition: Vector2, source: nat -> nat, first: nat, dt: real,
                              sheep': seq<S.Sheep>, next: nat)
    requires 0 <= i < |sheep| && |grass| == g.Count() && |ground| == g.Count()
    requires g.WellFormed() && 0 <= g.offset.x && 0 <= g.offset.y
  {
    var s := sheep[i];
    var t := sheep[i := s.(senseTimer := Tick(s.senseTimer, dt))];
    if T.IsDone(T.Update(s.senseTimer, dt)) then Sensed(t, i, g, grass, ground, wolfPosition, source, first, sheep', next)
    else sheep' == t && next == first
  }

  /** The turn to Afraid at the start of `Sheep::update`: a hunted sheep that is not
      Afraid yet becomes so. */
  function Alarmed(s: S.Sheep): S.Sheep
  {
    if s.isBeingHunted && s.state != S.Afraid then S.BecomeAfraid(s) else s
  }

  /** The grass layer after `Sheep::Think` of sheep `s`: a Hungry sheep that may eat
      and stands on edible grass eats the cell underneath. */
  function GrassAfterThink(s: S.Sheep, g: Grid, grass: seq<G.Grass>, edible: bool): seq<G.Grass>
  {
    if s.state == S.Hungry && S.CanSheepEat(s) && edible then GrassEatenAt(g, grass, s.position) else grass
  }

  /** The manure layer after `Sheep::Think` of sheep `s`: a Satiated sheep due to
      defecate drops manure on the cell underneath. */
  function ManureAfterThink(s: S.Sheep, g: Grid, manure: seq<M.Manure>): seq<M.Manure>
  {
    if s.state == S.Satiated && S.DefecatesWhenSatiated(s) then ManureDroppedAt(g, manure, s.position) else manure
  }

  /** The think cadence of `Sheep::update` on values: the think timer of sheep `i`
      ticks; once it is done, Think runs with the reset timer, on the sheep and on
      the grass and manure layers. */
  predicate ThinkTicked(sheep: seq<S.Sheep>, grass: seq<G.Grass>, manure: seq<M.Manure>, i: int, g: Grid,
                        normalize: Vector2 -> Vector2, edible: bool, dt: real,
                        sheep': seq<S.Sheep>, grass': seq<G.Grass>, manure': seq<M.Manure>)
    requires 0 <= i < |sheep|
  {
    var s := sheep[i];
    var t := s.(thinkTimer := Tick(s.thinkTimer, dt));
    if T.IsDone(T.Update(s.thinkTimer, dt)) then
      && sheep' == ThinkOutcome(sheep[i := t], i, g, normalize, edible, dt)
      && grass' == GrassAfterThink(t, g, grass, edible) && manure' == ManureAfterThink(t, g, manure)
    else sheep' == sheep[i := t] && grass' == grass && manure' == manure
  }

  /** The think cadence adds at most one sheep, a lamb at the sheep's position; it
      keeps the sheep alive or dead, its age and sense timer, its health in range,
      Afraid once Afraid, and never makes it its own mate; other sheep keep their
      bodies; with the timer not done, only the think timer changes. */
  lemma ThinkTickedEffect(sheep: seq<S.Sheep>, grass: seq<G.Grass>, manure: seq<M.Manure>, i: int, g: Grid,
                          normalize: Vector2 -> Vector2, edible: bool, dt: real,
                          sheep': seq<S.Sheep>, grass': seq<G.Grass>, manure': seq<M.Manure>)
    requires 0 <= i < |sheep| && sheep[i].sheepToMate != i
    requires ThinkTicked(sheep, grass, manure, i, g, normalize, edible, dt, sheep', grass', manure')
    ensures var s := sheep[i]; var n := |sheep|;
      && n <= |sheep'| <= n + 1
      && (|sheep'| == n + 1 ==> sheep'[n] == S.NewSheep(s.position))
      && sheep'[i].isAlive == s.isAlive && sheep'[i].age == s.age && sheep'[i].sheepToMate != i
      && sheep'[i].senseTimer == s.senseTimer && sheep'[i].thinkTimer == Tick(s.thinkTimer, dt)
      && (s.state == S.Afraid ==> sheep'[i].state == S.Afraid)
      && (S.HealthInRange(s) && dt >= 0.0 ==> S.HealthInRange(sheep'[i]))
      && (!T.IsDone(T.Update(s.thinkTimer, dt)) ==>
            sheep' == sheep[i := s.(thinkTimer := Tick(s.thinkTimer, dt))] && grass' == grass && manure' == manure)
      && forall k :: 0 <= k < n && k != i ==> SameBody(sheep'[k], sheep[k])
  {
    var s := sheep[i];
    var t := s.(thinkTimer := Tick(s.thinkTimer, dt));
    if T.IsDone(T.Update(s.thinkTimer, dt)) {
      ThinkOutcomeEffect(sheep[i := t], i, g, normalize, edible, dt);
    }
  }

  /** `Sheep::update` on values for a live sheep `i` with health left: the turn to
      Afraid, then the sense cadence (leaving `sensed`), then the think cadence with
      the grass test of the sheep's cell (leaving `thought`), then Act on the sheep. */
  ghost predicate LiveStepped(sheep: seq<S.Sheep>, grass: seq<G.Grass>, manure: seq<M.Manure>, i: int, g: Grid,
                              ground: seq<Ground>, normalize: Vector2 -> Vector2, wolfPosition: Vector2,
                              source: nat -> nat, first: nat, dt: real, sensed: seq<S.Sheep>, thought: seq<S.Sheep>,
                              sheep': seq<S.Sheep>, grass': seq<G.Grass>, manure': seq<M.Manure>, next: nat)
    requires 0 <= i < |sheep| && |grass| == g.Count() && |manure| == g.Count() && |ground| == g.Count()
    requires g.WellFormed() && 0 <= g.offset.x && 0 <= g.offset.y
  {
    && SenseTicked(sheep[i := Alarmed(sheep[i])], i, g, grass, ground, wolfPosition, source, first, dt, sensed, next)
    && |sensed| == |sheep|
    && ThinkTicked(sensed, grass, manure, i, g, normalize, GrassEdibleAt(g, grass, manure, sheep[i].position), dt,
                   thought, grass', manure')
    && i < |thought| && sheep' == thought[i := S.Act(thought[i], dt)]
  }

  /** `Sheep::update` on values for sheep `i`: a dead sheep is left alone, a live one
      without health is killed, and any other takes the LiveStepped step. */
  ghost predicate Updated(sheep: seq<S.Sheep>, grass: seq<G.Grass>, manure: seq<M.Manure>, i: int, g: Grid,
                          ground: seq<Ground>, normalize: Vector2 -> Vector2, wolfPosition: Vector2,
                          source: nat -> nat, first: nat, dt: real, sensed: seq<S.Sheep>, thought: seq<S.Sheep>,
                          sheep': seq<S.Sheep>, grass': seq<G.Grass>, manure': seq<M.Manure>, next: nat)
    requires 0 <= i < |sheep| && |grass| == g.Count() && |manure| == g.Count() && |ground| == g.Count()
    requires g.WellFormed() && 0 <= g.offset.x && 0 <= g.offset.y
  {
    var s := sheep[i];
    if !s.isAlive then sheep' == sheep && grass' == grass && manure' == manure && next == first
    else if s.health <= 0.0 then sheep' == Killed(sheep, i) && grass' == grass && manure' == manure && next == first
    else LiveStepped(sheep, grass, manure, i, g, ground, normalize, wolfPosition, source, first, dt, sensed, thought,
                     sheep', grass', manure', next)
  }

  // ---------------------------------------------------------------------------
  // The members, on the world

  /** `Sheep::KillSheep`. */
  method KillSheep(w: World, i: int)
    requires 0 <= i < |w.sheep|
    modifies w
    ensures w.sheep == Killed(old(w.sheep), i)
    ensures w.wolf == old(w.wolf) && w.herder == old(w.herder) && w.running == old(w.running)
  {
    var m := w.sheep[i].sheepToMate;
    w.sheep := w.sheep[i := S.Kill(w.sheep[i])];
    if w.IsSheepValid(m) && m < |w.sheep| {
      w.ResetSheepMate(m);
    }
  }

  /** `Sheep::EatGrass`: the grass underneath is eaten, then the sheep's own part. */
  method EatGrass(w: World, i: int)
    requires w.Valid() && 0 <= i < |w.sheep|
    modifies w, w.grass
    ensures w.sheep == old(w.sheep)[i := S.EatGrass(old(w.sheep)[i])]
    ensures w.grass[..] == GrassEatenAt(w.grid, old(w.grass[..]), old(w.sheep)[i].position)
    ensures w.wolf == old(w.wolf) && w.herder == old(w.herder) && w.running == old(w.running)
  {
    w.EatGrass(w.sheep[i].position);
    w.sheep := w.sheep[i := S.EatGrass(w.sheep[i])];
  }

  /** `Sheep::Defecate`: a dropping underneath, then the sheep's own part. */
  method Defecate(w: World, i: int)
    requires w.Valid() && 0 <= i < |w.sheep|
    modifies w, w.manure
    ensures w.sheep == old(w.sheep)[i := S.Defecate(old(w.sheep)[i])]
    ensures w.manure[..] == ManureDroppedAt(w.grid, old(w.manure[..]), old(w.sheep)[i].position)
    ensures w.wolf == old(w.wolf) && w.herder == old(w.herder) && w.running == old(w.running)
  {
    w.Defecate(w.sheep[i].position);
    w.sheep := w.sheep[i := S.Defecate(w.sheep[i])];
  }

  /** `Sheep::Reproduce`: only called with a mate index that holds a sheep. */
  method Reproduce(w: World, i: int)
    requires w.Valid() && 0 <= i < |w.sheep| && 0 <= w.sheep[i].sheepToMate < |w.sheep|
    modifies w, w.rng
    ensures w.sheep == Reproduced(old(w.sheep), i, old(w.sheep)[i].sheepToMate)
    ensures w.rng.next == old(w.rng.next)
    ensures w.wolf == old(w.wolf) && w.herder == old(w.herder) && w.running == old(w.running)
  {
    w.ResetSheepMate(w.sheep[i].sheepToMate);
    w.sheep := w.sheep[i := S.AfterReproducing(w.sheep[i])];
    w.SpawnSheep(w.sheep[i].position, false);
  }

  /** `Sheep::RunAway`. */
  method RunAway(w: World, i: int)
    requires 0 <= i < |w.sheep|
    modifies w
    ensures w.sheep == RanAway(old(w.sheep), i, w.grid, w.normalize)
    ensures w.wolf == old(w.wolf) && w.herder == old(w.herder) && w.running == old(w.running)
  {
    var m := w.sheep[i].sheepToMate;
    w.sheep := w.sheep[i := S.Flee(w.sheep[i])];
    if w.IsSheepValid(m) && m < |w.sheep| {
      w.ResetSheepMate(m);
    }
    w.sheep := w.sheep[i := S.TraverseUsingPath(w.sheep[i], w.grid, w.normalize)];
  }

  /** The Hungry case of `Sheep::Think`. */
  method ThinkWhenHungry(w: World, i: int, dt: real)
    requires w.Valid() && 0 <= i < |w.sheep|
    modifies w, w.grass
    ensures var s := old(w.sheep)[i]; var edible := old(w.CanGrassBeEaten(s.position));
      && w.sheep == old(w.sheep)[i := S.ThinkHungry(s, w.grid, w.normalize, edible, dt)]
      && (S.CanSheepEat(s) && edible ==> w.grass[..] == GrassEatenAt(w.grid, old(w.grass[..]), s.position))
      && (!(S.CanSheepEat(s) && edible) ==> w.grass[..] == old(w.grass[..]))
    ensures w.wolf == old(w.wolf) && w.herder == old(w.herder) && w.running == old(w.running)
  {
    if w.grid.IsValidCoord(w.sheep[i].randomTargetTile) {
      w.sheep := w.sheep[i := S.Wander(w.sheep[i], w.grid, w.normalize)];
    }
    if S.CanSheepEat(w.sheep[i]) && w.CanGrassBeEaten(w.sheep[i].position) {
      EatGrass(w, i);
    }
    var s := w.sheep[i];
    if s.timeBetweenEating > S.EATING_GRACE {
      if s.timeBetweenEating >= S.TIME_BEFORE_DAMAGE {
        w.sheep := w.sheep[i := S.TakeDamage(s, dt)];
      }
    }
  }

  /** The Satiated case of `Sheep::Think`. */
  method ThinkWhenSatiated(w: World, i: int)
    requires w.Valid() && 0 <= i < |w.sheep|
    modifies w, w.manure
    ensures var s := old(w.sheep)[i];
      && w.sheep == old(w.sheep)[i := S.ThinkSatiated(s, w.grid, w.normalize)]
      && (S.DefecatesWhenSatiated(s) ==> w.manure[..] == ManureDroppedAt(w.grid, old(w.manure[..]), s.position))
      && (!S.DefecatesWhenSatiated(s) ==> w.manure[..] == old(w.manure[..]))
    ensures w.wolf == old(w.wolf) && w.herder == old(w.herder) && w.running == old(w.running)
  {
    if w.grid.IsValidCoord(w.sheep[i].randomTargetTile) {
      w.sheep := w.sheep[i := S.Wander(w.sheep[i], w.grid, w.normalize)];
    }
    var s := w.sheep[i];
    if s.timeBetweenEating > S.EATING_GRACE {
      if s.health >= S.MAX_HEALTH && s.canReproduce {
        w.sheep := w.sheep[i := s.(state := S.Reproducing)];
        return;
      }
    }
    if s.timeSatiated >= S.DELAY_DEFECATING {
      Defecate(w, i);
    }
  }

  /** The Reproducing case of `Sheep::Think`. */
  method ThinkWhenReproducing(w: World, i: int)
    requires w.Valid() && 0 <= i < |w.sheep|
    modifies w, w.rng
    ensures w.sheep == ThinkReproducing(old(w.sheep), i, w.grid, w.normalize)
    ensures w.rng.next == old(w.rng.next)
    ensures w.wolf == old(w.wolf) && w.herder == old(w.herder) && w.running == old(w.running)
  {
    if w.sheep[i].isMatedWith {
      w.sheep := w.sheep[i := w.sheep[i].(randomTargetTile := NoTile)];
      return;
    }
    var m := w.sheep[i].sheepToMate;
    if m == -1 {
      if w.grid.IsValidCoord(w.sheep[i].randomTargetTile) {
        w.sheep := w.sheep[i := S.Wander(w.sheep[i], w.grid, w.normalize)];
      }
      return;
    }
    if !w.CanSheepCurrentlyMate(m) {
      w.sheep := w.sheep[i := S.GiveUpMate(w.sheep[i], w.IsSheepValid(m))];
      return;
    }
    w.SetSheepAsMate(m);
    w.sheep := w.sheep[i := S.GoTowardsMate(w.sheep[i], w.grid, w.normalize)];
    if w.IsInRangeOfMating(m, w.sheep[i].position) {
      Reproduce(w, i);
    }
  }

  /** The Afraid case of `Sheep::Think`. */
  method ThinkWhenAfraid(w: World, i: int)
    requires 0 <= i < |w.sheep|
    modifies w
    ensures w.sheep == ThinkAfraid(old(w.sheep), i, w.grid, w.normalize)
    ensures w.wolf == old(w.wolf) && w.herder == old(w.herder) && w.running == old(w.running)
  {
    if w.grid.IsValidCoord(w.sheep[i].randomTargetTile) {
      RunAway(w, i);
    }
  }

  /** `Sheep::Think`, dispatched on the current state: the sheep vector becomes
      ThinkOutcome's, a Hungry sheep that may eat and stands on edible grass eats the
      cell underneath (and no other grass changes), and a Satiated sheep due to
      defecate drops manure on its cell (and no other manure changes). */
  method Think(w: World, i: int, dt: real)
    requires w.Valid() && 0 <= i < |w.sheep|
    modifies w, w.grass, w.manure, w.rng
    ensures var s := old(w.sheep)[i]; var edible := old(w.CanGrassBeEaten(s.position));
      && w.sheep == ThinkOutcome(old(w.sheep), i, w.grid, w.normalize, edible, dt)
      && w.grass[..] == GrassAfterThink(s, w.grid, old(w.grass[..]), edible)
      && w.manure[..] == ManureAfterThink(s, w.grid, old(w.manure[..]))
    ensures w.rng.next == old(w.rng.next)
    ensures w.wolf == old(w.wolf) && w.herder == old(w.herder) && w.running == old(w.running)
  {
    match w.sheep[i].state
    case Hungry => ThinkWhenHungry(w, i, dt);
    case Satiated => ThinkWhenSatiated(w, i);
    case Reproducing => ThinkWhenReproducing(w, i);
    case Afraid => ThinkWhenAfraid(w, i);
  }

  /** The flee draw of the Afraid case of `Sheep::Sense`. */
  method DrawFleeTile(w: World, s: S.Sheep) returns (t: Point)
    requires w.Valid()
    modifies w.rng
    ensures w.rng.next == old(w.rng.next) + 2
    ensures var p := FleePoint(s, w.wolf.position, w.rng.source, old(w.rng.next)); t == ClampedTile(w.grid, p.0, p.1)
  {
    var box := S.FleeBox(s, w.wolf.position);
    var x := w.rng.GetRandomValue(TruncToInt(box.0.x), TruncToInt(box.1.x));
    var y := w.rng.GetRandomValue(TruncToInt(box.0.y), TruncToInt(box.1.y));
    t := ClampedTile(w.grid, x, y);
  }

  /** The start of every case of `Sheep::Sense`: a new target tile when needed. */
  method RetargetIfNeeded(w: World, i: int)
    requires w.Valid() && 0 <= i < |w.sheep|
    modifies w, w.rng
    ensures var s := old(w.sheep)[i];
      w.sheep == old(w.sheep)[i := s.(randomTargetTile :=
        SensedTarget(s, w.grid, w.grass[..], w.wolf.position, w.rng.source, old(w.rng.next)))]
    ensures w.rng.next == old(w.rng.next) + (if NeedsNewTarget(old(w.sheep)[i], w.grid, w.grass[..]) then 2 else 0)
    ensures w.wolf == old(w.wolf) && w.herder == old(w.herder) && w.running == old(w.running)
  {
    var s := w.sheep[i];
    var doesTileExist := w.grid.IsValidCoord(s.randomTargetTile);
    var reach := if s.state == S.Hungry then s.radius else s.radius + 2.0;
    var hasReachedDestination := S.HasReachedTile(s, w.grid, reach);
    var lacksGrass := s.state == S.Hungry && !G.HasGrassAt(w.grid, w.grass[..], s.randomTargetTile);
    if !doesTileExist || hasReachedDestination || lacksGrass {
      var t;
      if s.state == S.Afraid {
        t := DrawFleeTile(w, s);
      } else {
        t := w.GetRandomTile(s.position, S.GRASS_HUNTING_RANGE);
      }
      w.sheep := w.sheep[i := s.(randomTargetTile := t)];
    }
  }

  /** A path search from the sheep's tile to `target`, stored in its path. */
  method SearchPath(w: World, i: int, target: Point)
    requires w.Valid() && 0 <= i < |w.sheep|
    modifies w
    ensures var s := old(w.sheep)[i];
      && |w.sheep| == |old(w.sheep)| && w.sheep == old(w.sheep)[i := s.(path := w.sheep[i].path)]
      && SearchResult(w.grid, w.ground[..], w.grid.PositionToTile(s.position), target, w.sheep[i].path)
    ensures w.wolf == old(w.wolf) && w.herder == old(w.herder) && w.running == old(w.running)
  {
    var found, path := AStarPathFinding(w.grid, w.ground[..], w.grid.PositionToTile(w.sheep[i].position),
                                        target, w.heuristic);
    w.sheep := w.sheep[i := w.sheep[i].(path := path)];
  }

  /** The Hungry, Satiated and Afraid cases of `Sheep::Sense`: retarget when needed,
      then search a path to a target tile on the grid. */
  method SenseTarget(w: World, i: int)
    requires w.Valid() && 0 <= i < |w.sheep|
    modifies w, w.rng
    ensures |w.sheep| == |old(w.sheep)|
    ensures var s := old(w.sheep)[i]; var r := w.sheep[i];
      && |w.sheep| == |old(w.sheep)| && w.sheep == old(w.sheep)[i := r]
      && r == s.(randomTargetTile := r.randomTargetTile, path := r.path)
      && r.randomTargetTile == SensedTarget(s, w.grid, w.grass[..], w.wolf.position, w.rng.source, old(w.rng.next))
      && (w.grid.IsValidCoord(r.randomTargetTile) ==>
            SearchResult(w.grid, w.ground[..], w.grid.PositionToTile(s.position), r.randomTargetTile, r.path))
      && (!w.grid.IsValidCoord(r.randomTargetTile) ==> r.path == s.path)
      && SensedPath(w.grid, w.ground[..], w.grid.PositionToTile(s.position), s.path, r.path)
    ensures w.rng.next == old(w.rng.next) + (if NeedsNewTarget(old(w.sheep)[i], w.grid, w.grass[..]) then 2 else 0)
    ensures w.wolf == old(w.wolf) && w.herder == old(w.herder) && w.running == old(w.running)
  {
    RetargetIfNeeded(w, i);
    if w.grid.IsValidCoord(w.sheep[i].randomTargetTile) {
      SearchPath(w, i, w.sheep[i].randomTargetTile);
      SearchResultIsSensed(w.grid, w.ground[..], w.grid.PositionToTile(old(w.sheep)[i].position),
                           w.sheep[i].randomTargetTile, old(w.sheep)[i].path, w.sheep[i].path);
    }
  }

  /** The Reproducing case of `Sheep::Sense`: retarget when needed; unless claimed,
      look up a mate when there is none, then search a path to the mate, or, still
      without a mate, to a target tile on the grid. */
  method SenseMate(w: World, i: int)
    requires w.Valid() && 0 <= i < |w.sheep| && w.sheep[i].sheepToMate != i
    modifies w, w.rng
    ensures |w.sheep| == |old(w.sheep)|
    ensures var s := old(w.sheep)[i]; var r := w.sheep[i]; var start := w.grid.PositionToTile(s.position);
      && |w.sheep| == |old(w.sheep)| && w.sheep == old(w.sheep)[i := r]
      && r == s.(randomTargetTile := r.randomTargetTile, path := r.path, sheepToMate := r.sheepToMate)
      && r.randomTargetTile == SensedTarget(s, w.grid, w.grass[..], w.wolf.position, w.rng.source, old(w.rng.next))
      && r.sheepToMate != i
      && (s.isMatedWith || s.sheepToMate != -1 ==> r.sheepToMate == s.sheepToMate)
      && (!s.isMatedWith && s.sheepToMate == -1 ==> IsFirstMate(old(w.sheep), i, r.sheepToMate))
      && (s.isMatedWith ==> r.path == s.path)
      && (!s.isMatedWith && IsSheepIndexValid(|w.sheep|, r.sheepToMate) && r.sheepToMate < |w.sheep| ==>
            SearchResult(w.grid, w.ground[..], start, w.grid.PositionToTile(old(w.sheep)[r.sheepToMate].position), r.path))
      && (!s.isMatedWith && r.sheepToMate == -1 && w.grid.IsValidCoord(r.randomTargetTile) ==>
            SearchResult(w.grid, w.ground[..], start, r.randomTargetTile, r.path))
      && (!s.isMatedWith && !(IsSheepIndexValid(|w.sheep|, r.sheepToMate) && r.sheepToMate < |w.sheep|)
            && !(r.sheepToMate == -1 && w.grid.IsValidCoord(r.randomTargetTile)) ==>
            r.path == s.path)
      && SensedPath(w.grid, w.ground[..], start, s.path, r.path)
    ensures w.rng.next == old(w.rng.next) + (if NeedsNewTarget(old(w.sheep)[i], w.grid, w.grass[..]) then 2 else 0)
    ensures w.wolf == old(w.wolf) && w.herder == old(w.herder) && w.running == old(w.running)
  {
    RetargetIfNeeded(w, i);
    if w.sheep[i].isMatedWith {
      return;
    }
    assert forall k :: 0 <= k < |w.sheep| && k != i ==> w.sheep[k] == old(w.sheep)[k];
    PickMate(w, i);
    SearchMatePath(w, i);
  }

  /** The mate lookup of the Reproducing case of `Sheep::Sense`, made only by a
      sheep without a mate. */
  method PickMate(w: World, i: int)
    requires 0 <= i < |w.sheep| && w.sheep[i].sheepToMate != i
    modifies w
    ensures |w.sheep| == |old(w.sheep)|
    ensures var s := old(w.sheep)[i]; var r := w.sheep[i];
      && w.sheep == old(w.sheep)[i := s.(sheepToMate := r.sheepToMate)]
      && r.sheepToMate != i
      && (s.sheepToMate != -1 ==> r.sheepToMate == s.sheepToMate)
      && (s.sheepToMate == -1 ==> IsFirstMate(old(w.sheep), i, r.sheepToMate))
    ensures w.wolf == old(w.wolf) && w.herder == old(w.herder) && w.running == old(w.running)
  {
    if w.sheep[i].sheepToMate == -1 {
      var m := w.ReturnMatingSheep(i);
      w.sheep := w.sheep[i := w.sheep[i].(sheepToMate := m)];
    }
  }

  /** The path searches of the Reproducing case of `Sheep::Sense`: to the mate's
      tile when the mate index passes `isSheepValid`, and, still without a mate, to a
      target tile on the grid. */
  method SearchMatePath(w: World, i: int)
    requires w.Valid() && 0 <= i < |w.sheep| && w.sheep[i].sheepToMate != i
    modifies w
    ensures |w.sheep| == |old(w.sheep)|
    ensures var s := old(w.sheep)[i]; var r := w.sheep[i]; var m := s.sheepToMate;
      var start := w.grid.PositionToTile(s.position);
      && w.sheep == old(w.sheep)[i := s.(path := r.path)]
      && (IsSheepIndexValid(|w.sheep|, m) && m < |w.sheep| ==>
            SearchResult(w.grid, w.ground[..], start, w.grid.PositionToTile(old(w.sheep)[m].position), r.path))
      && (m == -1 && w.grid.IsValidCoord(s.randomTargetTile) ==>
            SearchResult(w.grid, w.ground[..], start, s.randomTargetTile, r.path))
      && (!IsSheepIndexValid(|w.sheep|, m) && !(m == -1 && w.grid.IsValidCoord(s.randomTargetTile)) ==>
            r.path == s.path)
      && SensedPath(w.grid, w.ground[..], start, s.path, r.path)
    ensures w.wolf == old(w.wolf) && w.herder == old(w.herder) && w.running == old(w.running)
  {
    var m := w.sheep[i].sheepToMate;
    ghost var start := w.grid.PositionToTile(w.sheep[i].position);
    if w.IsSheepValid(m) && m < |w.sheep| {
      SearchPath(w, i, w.grid.PositionToTile(w.sheep[m].position));
      SearchResultIsSensed(w.grid, w.ground[..], start, w.grid.PositionToTile(old(w.sheep)[m].position),
                           old(w.sheep)[i].path, w.sheep[i].path);
    }
    if w.grid.IsValidCoord(w.sheep[i].randomTargetTile) && w.sheep[i].sheepToMate == -1 {
      SearchPath(w, i, w.sheep[i].randomTargetTile);
      SearchResultIsSensed(w.grid, w.ground[..], start, w.sheep[i].randomTargetTile,
                           old(w.sheep)[i].path, w.sheep[i].path);
    }
  }

  /** `Sheep::Sense`, dispatched on the current state. */
  method Sense(w: World, i: int)
    requires w.Valid() && 0 <= i < |w.sheep| && w.sheep[i].sheepToMate != i
    modifies w, w.rng
    ensures |w.sheep| == |old(w.sheep)|
    ensures var s := old(w.sheep)[i]; var r := w.sheep[i];
      && |w.sheep| == |old(w.sheep)| && w.sheep == old(w.sheep)[i := r]
      && r == s.(randomTargetTile := r.randomTargetTile, path := r.path, sheepToMate := r.sheepToMate)
      && r.randomTargetTile == SensedTarget(s, w.grid, w.grass[..], w.wolf.position, w.rng.source, old(w.rng.next))
      && r.sheepToMate != i
      && (s.state != S.Reproducing ==> r.sheepToMate == s.sheepToMate)
      && SensedPath(w.grid, w.ground[..], w.grid.PositionToTile(s.position), s.path, r.path)
    ensures w.rng.next == old(w.rng.next) + (if NeedsNewTarget(old(w.sheep)[i], w.grid, w.grass[..]) then 2 else 0)
    ensures Sensed(old(w.sheep), i, w.grid, w.grass[..], w.ground[..], w.wolf.position, w.rng.source, old(w.rng.next),
                   w.sheep, w.rng.next)
    ensures w.wolf == old(w.wolf) && w.herder == old(w.herder) && w.running == old(w.running)
  {
    if w.sheep[i].state == S.Reproducing {
      SenseMate(w, i);
    } else {
      SenseTarget(w, i);
    }
  }


  /** A cadence timer's step in `Sheep::update`: Update, and Reset once done. */
  function Tick(t: T.Timer, dt: real): T.Timer
  {
    var u := T.Update(t, dt);
    if T.IsDone(u) then T.Reset(u) else u
  }

  /** `Sheep::update` on sheep `i`. A dead sheep is left alone; a live one without
      health is killed; otherwise a hunted sheep turns Afraid, Sense and Think run
      when their timers are done, and Act runs every time. */
  method Update(w: World, i: int, dt: real) returns (ghost sensed: seq<S.Sheep>, ghost thought: seq<S.Sheep>)
    requires w.Valid() && 0 <= i < |w.sheep| && w.sheep[i].sheepToMate != i
    modifies w, w.grass, w.manure, w.rng
    ensures Updated(old(w.sheep), old(w.grass[..]), old(w.manure[..]), i, w.grid, w.ground[..], w.normalize,
                    w.wolf.position, w.rng.source, old(w.rng.next), dt, sensed, thought, w.sheep, w.grass[..],
                    w.manure[..], w.rng.next)
    ensures |old(w.sheep)| <= |w.sheep| <= |old(w.sheep)| + 1
    ensures w.wolf == old(w.wolf) && w.herder == old(w.herder) && w.running == old(w.running)
    ensures !old(w.sheep)[i].isAlive ==>
      w.sheep == old(w.sheep) && w.rng.next == old(w.rng.next)
      && w.grass[..] == old(w.grass[..]) && w.manure[..] == old(w.manure[..])
    ensures old(w.sheep)[i].isAlive && old(w.sheep)[i].health <= 0.0 ==>
      w.sheep == Killed(old(w.sheep), i) && w.rng.next == old(w.rng.next)
      && w.grass[..] == old(w.grass[..]) && w.manure[..] == old(w.manure[..])
    ensures var s := old(w.sheep)[i]; var r := w.sheep[i]; var n := |old(w.sheep)|;
      s.isAlive && s.health > 0.0 ==>
        && n <= |w.sheep| <= n + 1
        && (|w.sheep| == n + 1 ==> w.sheep[n] == S.NewSheep(s.position))
        && r.isAlive && r.age == s.age + dt && r.sheepToMate != i
        && (s.isBeingHunted || s.state == S.Afraid ==> r.state == S.Afraid)
        && (S.HealthInRange(s) && dt >= 0.0 ==> S.HealthInRange(r))
        && r.senseTimer == Tick(s.senseTimer, dt) && r.thinkTimer == Tick(s.thinkTimer, dt)
        && (!T.IsDone(T.Update(s.senseTimer, dt)) ==> w.rng.next == old(w.rng.next))
        && (!T.IsDone(T.Update(s.thinkTimer, dt)) ==>
              |w.sheep| == n && w.grass[..] == old(w.grass[..]) && w.manure[..] == old(w.manure[..]))
    ensures old(w.sheep)[i].health <= 0.0 ==> !w.sheep[i].isAlive
    ensures w.sheep[i].sheepToMate != i
    ensures forall k :: 0 <= k < |old(w.sheep)| && k != i ==> SameBody(w.sheep[k], old(w.sheep)[k])
  {
    var s := w.sheep[i];
    sensed, thought := w.sheep, w.sheep;
    if !s.isAlive {
      return;
    }
    if s.health <= 0.0 {
      ghost var before := w.sheep;
      KillSheep(w, i);
      assert w.sheep == ResetValidMate(before[i := S.Kill(s)], s.sheepToMate);
      assert w.sheep[i] == S.Kill(s);
      return;
    }
    sensed, thought := LiveStep(w, i, dt);
  }

  /** The part of `Sheep::update` that runs for a live sheep with health left: the
      turn to Afraid when hunted, the Sense and Think cadences, and Act. */
  method LiveStep(w: World, i: int, dt: real) returns (ghost sensed: seq<S.Sheep>, ghost thought: seq<S.Sheep>)
    requires w.Valid() && 0 <= i < |w.sheep| && w.sheep[i].sheepToMate != i
    requires w.sheep[i].isAlive && w.sheep[i].health > 0.0
    modifies w, w.grass, w.manure, w.rng
    ensures LiveStepped(old(w.sheep), old(w.grass[..]), old(w.manure[..]), i, w.grid, w.ground[..], w.normalize,
                        w.wolf.position, w.rng.source, old(w.rng.next), dt, sensed, thought, w.sheep, w.grass[..],
                        w.manure[..], w.rng.next)
    ensures w.wolf == old(w.wolf) && w.herder == old(w.herder) && w.running == old(w.running)
    ensures |old(w.sheep)| <= |w.sheep| <= |old(w.sheep)| + 1
    ensures var s := old(w.sheep)[i]; var r := w.sheep[i]; var n := |old(w.sheep)|;
      && (|w.sheep| == n + 1 ==> w.sheep[n] == S.NewSheep(s.position))
      && r.isAlive && r.age == s.age + dt && r.sheepToMate != i
      && (s.isBeingHunted || s.state == S.Afraid ==> r.state == S.Afraid)
      && (S.HealthInRange(s) && dt >= 0.0 ==> S.HealthInRange(r))
      && r.senseTimer == Tick(s.senseTimer, dt) && r.thinkTimer == Tick(s.thinkTimer, dt)
      && (!T.IsDone(T.Update(s.senseTimer, dt)) ==> w.rng.next == old(w.rng.next))
      && (!T.IsDone(T.Update(s.thinkTimer, dt)) ==>
            |w.sheep| == n && w.grass[..] == old(w.grass[..]) && w.manure[..] == old(w.manure[..]))
    ensures forall k :: 0 <= k < |old(w.sheep)| && k != i ==> SameBody(w.sheep[k], old(w.sheep)[k])
  {
    ghost var s, sheep, grass, manure := w.sheep[i], w.sheep, w.grass[..], w.manure[..];
    AlarmAndSense(w, i, dt);
    sensed := w.sheep;
    assert w.CanGrassBeEaten(sensed[i].position) == GrassEdibleAt(w.grid, grass, manure, s.position);
    ThinkStep(w, i, dt);
    thought := w.sheep;
    assert ThinkTicked(sensed, grass, manure, i, w.grid, w.normalize, GrassEdibleAt(w.grid, grass, manure, s.position),
                       dt, thought, w.grass[..], w.manure[..]);
    var c := w.sheep[i];
    assert c.isAlive && c.age == s.age && c.sheepToMate != i;
    w.sheep := w.sheep[i := S.Act(c, dt)];
    S.ActKeepsState(c, dt);
  }

  /** The first half of `Sheep::update` for a live sheep: the turn to Afraid when
      hunted, then the sense cadence. Life, age, health and the think timer are
      kept, and only the sense timer's tick and Sense change the sheep. */
  method AlarmAndSense(w: World, i: int, dt: real)
    requires w.Valid() && 0 <= i < |w.sheep| && w.sheep[i].sheepToMate != i
    modifies w, w.rng
    ensures |w.sheep| == |old(w.sheep)|
    ensures var s := old(w.sheep)[i]; var r := w.sheep[i];
      && w.sheep == old(w.sheep)[i := r]
      && r.isAlive == s.isAlive && r.age == s.age && r.health == s.health && r.position == s.position
      && r.sheepToMate != i && r.senseTimer == Tick(s.senseTimer, dt) && r.thinkTimer == s.thinkTimer
      && (s.isBeingHunted || s.state == S.Afraid ==> r.state == S.Afraid)
      && (!T.IsDone(T.Update(s.senseTimer, dt)) ==> w.rng.next == old(w.rng.next))
    ensures SenseTicked(old(w.sheep)[i := Alarmed(old(w.sheep)[i])], i, w.grid, w.grass[..], w.ground[..],
                        w.wolf.position, w.rng.source, old(w.rng.next), dt, w.sheep, w.rng.next)
    ensures w.wolf == old(w.wolf) && w.herder == old(w.herder) && w.running == old(w.running)
  {
    var s := w.sheep[i];
    if s.isBeingHunted && s.state != S.Afraid {
      w.sheep := w.sheep[i := S.BecomeAfraid(s)];
    }
    ghost var a := w.sheep[i];
    assert a == s.(state := a.state, randomTargetTile := a.randomTargetTile, isMatedWith := a.isMatedWith);
    assert w.sheep == old(w.sheep)[i := Alarmed(s)];
    SenseStep(w, i, dt);
  }

  /** The sense cadence of `Sheep::update`: the timer advances, and once done it is
      reset and Sense runs. */
  method SenseStep(w: World, i: int, dt: real)
    requires w.Valid() && 0 <= i < |w.sheep| && w.sheep[i].sheepToMate != i
    modifies w, w.rng
    ensures |w.sheep| == |old(w.sheep)|
    ensures var s := old(w.sheep)[i]; var r := w.sheep[i];
      && w.sheep == old(w.sheep)[i := r]
      && r == s.(senseTimer := Tick(s.senseTimer, dt), randomTargetTile := r.randomTargetTile, path := r.path,
                 sheepToMate := r.sheepToMate)
      && r.sheepToMate != i
      && (!T.IsDone(T.Update(s.senseTimer, dt)) ==> r == s.(senseTimer := Tick(s.senseTimer, dt)))
      && (!T.IsDone(T.Update(s.senseTimer, dt)) ==> w.rng.next == old(w.rng.next))
    ensures SenseTicked(old(w.sheep), i, w.grid, w.grass[..], w.ground[..], w.wolf.position, w.rng.source,
                        old(w.rng.next), dt, w.sheep, w.rng.next)
    ensures w.wolf == old(w.wolf) && w.herder == old(w.herder) && w.running == old(w.running)
  {
    w.sheep := w.sheep[i := w.sheep[i].(senseTimer := T.Update(w.sheep[i].senseTimer, dt))];
    if T.IsDone(w.sheep[i].senseTimer) {
      w.sheep := w.sheep[i := w.sheep[i].(senseTimer := T.Reset(w.sheep[i].senseTimer))];
      assert w.sheep == old(w.sheep)[i := old(w.sheep)[i].(senseTimer := Tick(old(w.sheep)[i].senseTimer, dt))];
      Sense(w, i);
    }
  }

  /** The think cadence of `Sheep::update`: the timer advances, and once done it is
      reset and Think runs. */
  method ThinkStep(w: World, i: int, dt: real)
    requires w.Valid() && 0 <= i < |w.sheep| && w.sheep[i].sheepToMate != i
    modifies w, w.grass, w.manure, w.rng
    ensures |old(w.sheep)| <= |w.sheep| <= |old(w.sheep)| + 1
    ensures var s := old(w.sheep)[i]; var r := w.sheep[i]; var n := |old(w.sheep)|;
      && (|w.sheep| == n + 1 ==> w.sheep[n] == S.NewSheep(s.position))
      && r.isAlive == s.isAlive && r.age == s.age && r.sheepToMate != i
      && r.senseTimer == s.senseTimer && r.thinkTimer == Tick(s.thinkTimer, dt)
      && (s.state == S.Afraid ==> r.state == S.Afraid)
      && (S.HealthInRange(s) && dt >= 0.0 ==> S.HealthInRange(r))
      && (!T.IsDone(T.Update(s.thinkTimer, dt)) ==>
            w.sheep == old(w.sheep)[i := s.(thinkTimer := Tick(s.thinkTimer, dt))]
            && w.grass[..] == old(w.grass[..]) && w.manure[..] == old(w.manure[..]))
      && forall k :: 0 <= k < n && k != i ==> SameBody(w.sheep[k], old(w.sheep)[k])
    ensures var s := old(w.sheep)[i];
      ThinkTicked(old(w.sheep), old(w.grass[..]), old(w.manure[..]), i, w.grid, w.normalize,
                  old(w.CanGrassBeEaten(s.position)), dt, w.sheep, w.grass[..], w.manure[..])
    ensures w.rng.next == old(w.rng.next)
    ensures w.wolf == old(w.wolf) && w.herder == old(w.herder) && w.running == old(w.running)
  {
    ghost var s := w.sheep[i];
    ghost var t := s.(thinkTimer := Tick(s.thinkTimer, dt));
    w.sheep := w.sheep[i := w.sheep[i].(thinkTimer := T.Update(w.sheep[i].thinkTimer, dt))];
    if T.IsDone(w.sheep[i].thinkTimer) {
      w.sheep := w.sheep[i := w.sheep[i].(thinkTimer := T.Reset(w.sheep[i].thinkTimer))];
      assert w.sheep == old(w.sheep)[i := t];
      ghost var before := w.sheep;
      ghost var edible := w.CanGrassBeEaten(t.position);
      Think(w, i, dt);
    }
    ThinkTickedEffect(old(w.sheep), old(w.grass[..]), old(w.manure[..]), i, w.grid, w.normalize,
                      old(w.CanGrassBeEaten(s.position)), dt, w.sheep, w.grass[..], w.manure[..]);
  }
}
