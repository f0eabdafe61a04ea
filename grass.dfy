/** `sim::Grass`: one cell of the grass layer and the part of its life cycle that
    concerns the cell alone. Seed spreading, which writes neighbouring cells, is
    in GrassBehaviour. */
module GrassLayer {
  import opened Geometry
  import opened TileGrid

  datatype State = Growing | Fertilised | FullyGrown | Wilting

  const NORMAL_GROW_SPEED: real := 0.01
  const FERTILISED_GROW_SPEED: real := 0.05
  /** The age of freshly spawned grass. */
  const SPAWN_AGE: real := 0.01
  const FULLY_GROWN_AGE: real := 0.67
  const WILTING_AGE: real := 0.84
  const DEATH_AGE: real := 1.0

  datatype Grass = Grass(state: State, tileCoord: Point, age: real,
                         hasSeedsAvailable: bool, isFertilised: bool, isEdible: bool)

  /** A default-constructed cell: dead (age 0), Growing, with seeds, edible. */
  const DefaultGrass: Grass := Grass(Growing, Point(0, 0), 0.0, true, false, true)

  /** `Grass::is_alive`. */
  predicate IsAlive(g: Grass)
  {
    g.age > 0.0
  }

  /** `Grass::isFullyGrown`. */
  predicate IsFullyGrown(g: Grass)
  {
    g.age >= FULLY_GROWN_AGE
  }

  /** `Grass::SpawnGrass`: young, seeded, edible grass that starts Growing. The
      coordinate and the fertilised flag are kept. */
  function Spawn(g: Grass): (r: Grass)
    ensures IsAlive(r) && !IsFullyGrown(r) && r.age == SPAWN_AGE
    ensures r.state == Growing && r.hasSeedsAvailable && r.isEdible
    ensures r.tileCoord == g.tileCoord && r.isFertilised == g.isFertilised
  {
    g.(age := SPAWN_AGE, hasSeedsAvailable := true, isEdible := true, state := Growing)
  }

  /** `Grass::DespawnGrass`: dead and inedible; the state is kept. */
  function Despawn(g: Grass): (r: Grass)
    ensures !IsAlive(r) && r.age == 0.0 && !r.isEdible
    ensures r.state == g.state && r.tileCoord == g.tileCoord
    ensures r.hasSeedsAvailable == g.hasSeedsAvailable && r.isFertilised == g.isFertilised
  {
    g.(isEdible := false, age := 0.0)
  }

  /** The growth rate of a state. */
  function Speed(s: State): real
  {
    if s == Fertilised then FERTILISED_GROW_SPEED else NORMAL_GROW_SPEED
  }

  /** The state step of `Grass::Update` (Grass.cpp, the four cases of the switch)
      without the seed spreading of FullyGrown: the age grows at the state's rate and
      the thresholds move the state on. Dead grass is left alone. */
  function Advance(g: Grass, dt: real): (r: Grass)
    ensures !IsAlive(g) ==> r == g
    ensures r.tileCoord == g.tileCoord && r.hasSeedsAvailable == g.hasSeedsAvailable
    ensures r.isFertilised == g.isFertilised
    ensures IsAlive(g) && r.age != 0.0 ==> r.age == g.age + Speed(g.state) * dt
  {
    if !IsAlive(g) then g
    else
      var aged := g.(age := g.age + Speed(g.state) * dt);
      match g.state
      case Growing =>
        if g.isFertilised then aged.(state := Fertilised)
        else if IsFullyGrown(aged) then aged.(state := FullyGrown)
        else aged
      case Fertilised =>
        if !g.isFertilised then aged.(state := Growing)
        else if IsFullyGrown(aged) then aged.(state := FullyGrown)
        else aged
      case FullyGrown =>
        if aged.age >= WILTING_AGE then aged.(state := Wilting) else aged
      case Wilting =>
        if aged.age >= DEATH_AGE then Despawn(aged) else aged
  }

  /** The transitions of the state step, state by state: the fertilised flag wins
      over the age threshold in Growing and in Fertilised, FullyGrown turns to
      Wilting at 0.84, and Wilting grass dies at age 1 without leaving Wilting. */
  lemma AdvanceTransitions(g: Grass, dt: real)
    requires IsAlive(g)
    ensures var r := Advance(g, dt); var a := g.age + Speed(g.state) * dt;
      && (g.state == Growing ==>
            r.state == (if g.isFertilised then Fertilised else if a >= FULLY_GROWN_AGE then FullyGrown else Growing))
      && (g.state == Fertilised ==>
            r.state == (if !g.isFertilised then Growing else if a >= FULLY_GROWN_AGE then FullyGrown else Fertilised))
      && (g.state == FullyGrown ==> r.state == (if a >= WILTING_AGE then Wilting else FullyGrown))
      && (g.state == Wilting ==> r.state == Wilting && (if a >= DEATH_AGE then !IsAlive(r) else r.age == a))
      && (g.state != Wilting ==> r.age == a && r.isEdible == g.isEdible)
  {
  }

  /** For a non-negative time step, live grass never gets younger; its age drops back
      to 0 only when Wilting grass reaches age 1 and is despawned. */
  lemma AgeNeverDecreases(g: Grass, dt: real)
    requires dt >= 0.0
    ensures var r := Advance(g, dt);
      && (IsAlive(r) ==> r.age >= g.age)
      && (IsAlive(g) && !IsAlive(r) ==> g.state == Wilting && g.age + NORMAL_GROW_SPEED * dt >= DEATH_AGE && r.age == 0.0)
  {
  }

  /** The stage invariant: FullyGrown grass has reached 0.67 and live Wilting grass
      has reached 0.84. */
  predicate StageConsistent(g: Grass)
  {
    && (g.state == FullyGrown ==> g.age >= FULLY_GROWN_AGE)
    && (g.state == Wilting && IsAlive(g) ==> g.age >= WILTING_AGE)
  }

  /** The state step keeps the stage invariant for any non-negative time step, and
      so does spawning. */
  lemma {:induction false} AdvanceKeepsStages(g: Grass, dt: real)
    requires dt >= 0.0 && StageConsistent(g)
    ensures StageConsistent(Advance(g, dt))
    ensures StageConsistent(Spawn(g))
  {
    if IsAlive(g) {
      AgeNeverDecreases(g, dt);
      AdvanceTransitions(g, dt);
    }
  }

  /** Over any number of non-negative steps, live grass only ages; and once dead it
      stays dead. */
  lemma {:induction false} AdvanceManyAges(g: Grass, dts: seq<real>)
    requires forall k :: 0 <= k < |dts| ==> dts[k] >= 0.0
    ensures IsAlive(AdvanceMany(g, dts)) ==> AdvanceMany(g, dts).age >= g.age
    ensures !IsAlive(g) ==> AdvanceMany(g, dts) == g
    decreases |dts|
  {
    if dts != [] {
      AgeNeverDecreases(g, dts[0]);
      AdvanceManyAges(Advance(g, dts[0]), dts[1..]);
      if IsAlive(AdvanceMany(g, dts)) {
        DeadStaysDead(Advance(g, dts[0]), dts[1..]);
      }
    }
  }

  lemma {:induction false} DeadStaysDead(g: Grass, dts: seq<real>)
    ensures !IsAlive(g) ==> AdvanceMany(g, dts) == g
    decreases |dts|
  {
    if dts != [] {
      DeadStaysDead(Advance(g, dts[0]), dts[1..]);
    }
  }

  function AdvanceMany(g: Grass, dts: seq<real>): Grass
    decreases |dts|
  {
    if dts == [] then g else AdvanceMany(Advance(g, dts[0]), dts[1..])
  }

  /** `World::has_grass_at`: false off the grid, otherwise whether the cell's grass
      is alive. */
  predicate HasGrassAt(g: Grid, grass: seq<Grass>, c: Point)
    requires |grass| == g.Count()
  {
    g.IsValidCoord(c) && (IndexInRange(g, c); IsAlive(grass[g.Index(c)]))
  }

  /** `World::isGrassFullyGrown`: false off the grid, otherwise whether the cell's
      grass is fully grown. */
  predicate IsGrassFullyGrownAt(g: Grid, grass: seq<Grass>, c: Point)
    requires |grass| == g.Count()
  {
    g.IsValidCoord(c) && (IndexInRange(g, c); IsFullyGrown(grass[g.Index(c)]))
  }
}
