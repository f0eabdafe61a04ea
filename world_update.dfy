/** `World::update` and the `contain_within_bounds` helper it applies to the sheep
    and the wolf: one frame of the simulation, in the order the world runs it (the
    escape key, every grass cell, every sheep, every dropping, the wolf, the
    herder). The keyboard and mouse readings are parameters. */
module WorldUpdate {
  import opened Geometry
  import opened TileGrid
  import opened Random
  import opened GroundLayer
  import opened WorldModel
  import G = GrassLayer
  import M = ManureLayer
  import S = SheepAgent
  import W = WolfAgent
  import H = HerderAgent
  import GB = GrassBehaviour
  import MB = ManureBehaviour
  import SB = SheepBehaviour
  import WB = WolfBehaviour
  import HB = HerderBehaviour

  // ---------------------------------------------------------------------------
  // contain_within_bounds

  /** One axis of `contain_within_bounds`: a coordinate below `lo + r` is put
      there and its direction reversed; the result is then compared with
      `lo + size - r` and, if above, put there and reversed again. */
  function ContainAxis(p: real, d: real, r: real, lo: real, size: real): (real, real)
  {
    var (p1, d1) := if p < lo + r then (lo + r, -d) else (p, d);
    if p1 > lo + size - r then (lo + size - r, -d1) else (p1, d1)
  }

  /** `contain_within_bounds` on an entity's position and direction. */
  function Contain(position: Vector2, direction: Vector2, r: real, b: Rectangle): (Vector2, Vector2)
  {
    var (x, dx) := ContainAxis(position.x, direction.x, r, b.x, b.width);
    var (y, dy) := ContainAxis(position.y, direction.y, r, b.y, b.height);
    (Vector2(x, y), Vector2(dx, dy))
  }

  /** Whether a disc of radius r fits in the rectangle. */
  predicate Fits(r: real, b: Rectangle)
  {
    2.0 * r <= b.width && 2.0 * r <= b.height
  }

  /** Whether a disc of radius r centred on p lies inside the rectangle. */
  predicate Contained(p: Vector2, r: real, b: Rectangle)
  {
    b.x + r <= p.x <= b.x + b.width - r && b.y + r <= p.y <= b.y + b.height - r
  }

  /** On one axis wide enough for the disc: the coordinate ends inside, and an
      outside coordinate is moved to the nearer edge with its direction reversed
      once, while an inside one is left alone. */
  lemma ContainAxisEffect(p: real, d: real, r: real, lo: real, size: real)
    requires 2.0 * r <= size
    ensures var (p', d') := ContainAxis(p, d, r, lo, size);
      && lo + r <= p' <= lo + size - r
      && (lo + r <= p <= lo + size - r ==> p' == p && d' == d)
      && (p < lo + r ==> p' == lo + r && d' == -d)
      && (p > lo + size - r ==> p' == lo + size - r && d' == -d)
  {
  }

  /** On an axis narrower than the disc, a coordinate below the low edge is moved
      twice and ends on the high edge with its direction reversed twice, that is
      unchanged. */
  lemma NarrowAxisBouncesTwice(p: real, d: real, r: real, lo: real, size: real)
    requires size < 2.0 * r && p < lo + r
    ensures ContainAxis(p, d, r, lo, size) == (lo + size - r, d)
  {
  }

  /** In bounds the disc fits in, containing puts the entity inside, reverses
      exactly the direction components of the axes it crossed, and leaves an
      entity already inside where it was. */
  lemma ContainEffect(position: Vector2, direction: Vector2, r: real, b: Rectangle)
    requires Fits(r, b)
    ensures var (p, d) := Contain(position, direction, r, b);
      && Contained(p, r, b)
      && (Contained(position, r, b) ==> p == position && d == direction)
      && (position.x < b.x + r || position.x > b.x + b.width - r ==> d.x == -direction.x)
      && (b.x + r <= position.x <= b.x + b.width - r ==> p.x == position.x && d.x == direction.x)
      && (position.y < b.y + r || position.y > b.y + b.height - r ==> d.y == -direction.y)
      && (b.y + r <= position.y <= b.y + b.height - r ==> p.y == position.y && d.y == direction.y)
  {
    ContainAxisEffect(position.x, direction.x, r, b.x, b.width);
    ContainAxisEffect(position.y, direction.y, r, b.y, b.height);
  }

  /** Containing twice is containing once, in bounds the disc fits in. */
  lemma ContainIdempotent(position: Vector2, direction: Vector2, r: real, b: Rectangle)
    requires Fits(r, b)
    ensures var (p, d) := Contain(position, direction, r, b);
      Contain(p, d, r, b) == (p, d)
  {
    var (p, d) := Contain(position, direction, r, b);
    ContainEffect(position, direction, r, b);
    ContainEffect(p, d, r, b);
  }

  /** A sheep after `contain_within_bounds`. */
  function ContainSheep(s: S.Sheep, b: Rectangle): (r: S.Sheep)
  {
    var (p, d) := Contain(s.position, s.direction, s.radius, b);
    s.(position := p, direction := d)
  }

  /** The wolf after `contain_within_bounds`. */
  function ContainWolf(v: W.Wolf, b: Rectangle): (r: W.Wolf)
  {
    var (p, d) := Contain(v.position, v.direction, v.radius, b);
    v.(position := p, direction := d)
  }

  // ---------------------------------------------------------------------------
  // The passes over the per-tile arrays

  /** The grass loop from cell `from` on: each cell's update in index order, each
      drawing from the random source where the previous one stopped. */
  function GrassPass(g: Grid, ground: seq<Ground>, grass: seq<G.Grass>, from: nat, dt: real,
                     source: nat -> nat, next: nat): (r: (seq<G.Grass>, nat))
    requires |ground| == g.Count() && |grass| == g.Count()
    ensures |r.0| == |grass| && r.1 >= next
    decreases |grass| - from
  {
    if from >= |grass| then (grass, next)
    else GrassPass(g, ground, GB.Updated(g, ground, grass, from, dt, source, next), from + 1, dt, source,
                   next + (if GB.Seeds(grass[from]) then 8 else 0))
  }

  /** The manure loop from entry `from` on, in index order. */
  function ManurePass(g: Grid, l: MB.Layers, from: nat, dt: real, source: nat -> nat, next: nat)
    : (r: (MB.Layers, nat))
    requires l.Fits(g)
    ensures r.0.Fits(g) && r.1 >= next
    decreases |l.manure| - from
  {
    if from >= |l.manure| then (l, next)
    else ManurePass(g, MB.Updated(g, l, from, dt, source, next), from + 1, dt, source,
                    next + (if MB.WillFertilise(l.manure[from]) then 8 else 0))
  }

  /** The grass loop of `World::update`. */
  method UpdateGrass(w: World, dt: real)
    requires w.Valid()
    modifies w.grass, w.rng
    ensures (w.grass[..], w.rng.next) ==
      GrassPass(w.grid, w.ground[..], old(w.grass[..]), 0, dt, w.rng.source, old(w.rng.next))
  {
    var i := 0;
    while i < w.grass.Length
      invariant 0 <= i <= w.grass.Length
      invariant GrassPass(w.grid, w.ground[..], w.grass[..], i, dt, w.rng.source, w.rng.next) ==
        GrassPass(w.grid, w.ground[..], old(w.grass[..]), 0, dt, w.rng.source, old(w.rng.next))
    {
      GB.Update(w, i, dt);
      i := i + 1;
    }
  }

  /** The manure loop of `World::update`. */
  method UpdateManure(w: World, dt: real)
    requires w.Valid()
    modifies w.ground, w.grass, w.manure, w.rng
    ensures (MB.Layers(w.ground[..], w.grass[..], w.manure[..]), w.rng.next) ==
      ManurePass(w.grid, MB.Layers(old(w.ground[..]), old(w.grass[..]), old(w.manure[..])), 0, dt,
                 w.rng.source, old(w.rng.next))
  {
    var i := 0;
    while i < w.manure.Length
      invariant 0 <= i <= w.manure.Length
      invariant ManurePass(w.grid, MB.Layers(w.ground[..], w.grass[..], w.manure[..]), i, dt,
                           w.rng.source, w.rng.next) ==
        ManurePass(w.grid, MB.Layers(old(w.ground[..]), old(w.grass[..]), old(w.manure[..])), 0, dt,
                   w.rng.source, old(w.rng.next))
    {
      MB.Update(w, i, dt);
      i := i + 1;
    }
  }

  // ---------------------------------------------------------------------------
  // The sheep loop and the frame

  /** No sheep names itself as its mate; `Sheep::update` relies on it. */
  predicate MatesAreOthers(sheep: seq<S.Sheep>)
  {
    forall k :: 0 <= k < |sheep| ==> sheep[k].sheepToMate != k
  }

  /** The sheep loop after `i` of the `n` sheep it started with (`orig`): the
      sheep not yet updated are as they were, the updated ones are inside the
      bounds, dead if they were dead or without health and one dt older if not,
      and every lamb is a live newborn without a mate. */
  predicate SheepPassAt(sheep: seq<S.Sheep>, orig: seq<S.Sheep>, i: int, b: Rectangle, dt: real)
  {
    && 0 <= i <= |orig| <= |sheep|
    && MatesAreOthers(sheep)
    && (forall k :: i <= k < |orig| ==> SB.SameBody(sheep[k], orig[k]))
    && (forall k :: 0 <= k < i && Fits(sheep[k].radius, b) ==> Contained(sheep[k].position, sheep[k].radius, b))
    && (forall k :: 0 <= k < i ==>
          (!orig[k].isAlive || orig[k].health <= 0.0 ==> !sheep[k].isAlive)
          && (orig[k].isAlive && orig[k].health > 0.0 ==> sheep[k].isAlive && sheep[k].age == orig[k].age + dt))
    && (forall k :: |orig| <= k < |sheep| ==> sheep[k].isAlive && sheep[k].age == 0.0 && sheep[k].sheepToMate == -1)
  }

  /** The part of the world the sheep loop changes: the sheep, the grass and manure
      layers, and the next draw of the random source. */
  datatype Herd = Herd(sheep: seq<S.Sheep>, grass: seq<G.Grass>, manure: seq<M.Manure>, next: nat)

  /** The vectors one turn of the sheep loop passes through: after the sense
      cadence, after the think cadence, and after `Sheep::update`. */
  datatype Turn = Turn(sensed: seq<S.Sheep>, thought: seq<S.Sheep>, updated: seq<S.Sheep>)

  /** Turn `i` of the sheep loop on values: `Sheep::update` on sheep `i` of `before`,
      as SheepBehaviour.Updated says, then `contain_within_bounds` on that sheep. */
  ghost predicate TurnTaken(before: Herd, i: int, g: Grid, ground: seq<Ground>, normalize: Vector2 -> Vector2,
                            wolfPosition: Vector2, source: nat -> nat, dt: real, t: Turn, after: Herd)
  {
    && 0 <= i < |before.sheep| && |before.grass| == g.Count() && |before.manure| == g.Count()
    && |ground| == g.Count() && g.WellFormed() && 0 <= g.offset.x && 0 <= g.offset.y
    && SB.Updated(before.sheep, before.grass, before.manure, i, g, ground, normalize, wolfPosition, source,
                  before.next, dt, t.sensed, t.thought, t.updated, after.grass, after.manure, after.next)
    && i < |t.updated| && after.sheep == t.updated[i := ContainSheep(t.updated[i], g.Bounds())]
  }

  /** The sheep loop on values: `herds[k]` is the state before turn `k`, and every
      turn is TurnTaken. */
  ghost predicate SheepLoop(herds: seq<Herd>, turns: seq<Turn>, g: Grid, ground: seq<Ground>,
                            normalize: Vector2 -> Vector2, wolfPosition: Vector2, source: nat -> nat, dt: real)
  {
    && |herds| == |turns| + 1
    && forall k :: 0 <= k < |turns| ==>
         TurnTaken(herds[k], k, g, ground, normalize, wolfPosition, source, dt, turns[k], herds[k + 1])
  }

  /** The sheep loop of `World::update`: each sheep present when the loop starts is
      updated and contained in turn, from the state the previous turn left (the
      trace is `herds`, the turns' intermediate vectors `turns`); lambs born during
      the loop are not. Besides, SheepPassAt sums up what the loop leaves. */
  method UpdateSheep(w: World, dt: real) returns (ghost herds: seq<Herd>, ghost turns: seq<Turn>)
    requires w.Valid() && MatesAreOthers(w.sheep)
    modifies w, w.grass, w.manure, w.rng
    ensures SheepLoop(herds, turns, w.grid, w.ground[..], w.normalize, w.wolf.position, w.rng.source, dt)
    ensures |turns| == |old(w.sheep)|
    ensures herds[0] == Herd(old(w.sheep), old(w.grass[..]), old(w.manure[..]), old(w.rng.next))
    ensures herds[|turns|] == Herd(w.sheep, w.grass[..], w.manure[..], w.rng.next)
    ensures SheepPassAt(w.sheep, old(w.sheep), |old(w.sheep)|, w.grid.Bounds(), dt)
    ensures w.wolf == old(w.wolf) && w.herder == old(w.herder) && w.running == old(w.running)
  {
    var n := |w.sheep|;
    var i := 0;
    herds, turns := [Herd(w.sheep, w.grass[..], w.manure[..], w.rng.next)], [];
    while i < n
      invariant n == |old(w.sheep)| && |turns| == i
      invariant SheepPassAt(w.sheep, old(w.sheep), i, w.grid.Bounds(), dt)
      invariant SheepLoop(herds, turns, w.grid, w.ground[..], w.normalize, w.wolf.position, w.rng.source, dt)
      invariant herds[0] == Herd(old(w.sheep), old(w.grass[..]), old(w.manure[..]), old(w.rng.next))
      invariant herds[i] == Herd(w.sheep, w.grass[..], w.manure[..], w.rng.next)
      invariant w.wolf == old(w.wolf) && w.herder == old(w.herder) && w.running == old(w.running)
    {
      var t := UpdateOneSheep(w, i, dt, old(w.sheep));
      SheepLoopExtends(herds, turns, w.grid, w.ground[..], w.normalize, w.wolf.position, w.rng.source, dt, t,
                       Herd(w.sheep, w.grass[..], w.manure[..], w.rng.next));
      herds, turns := herds + [Herd(w.sheep, w.grass[..], w.manure[..], w.rng.next)], turns + [t];
      i := i + 1;
    }
  }

  /** A turn taken from the last state of the trace extends the loop by one. */
  lemma SheepLoopExtends(herds: seq<Herd>, turns: seq<Turn>, g: Grid, ground: seq<Ground>,
                         normalize: Vector2 -> Vector2, wolfPosition: Vector2, source: nat -> nat, dt: real,
                         t: Turn, after: Herd)
    requires SheepLoop(herds, turns, g, ground, normalize, wolfPosition, source, dt)
    requires TurnTaken(herds[|turns|], |turns|, g, ground, normalize, wolfPosition, source, dt, t, after)
    ensures SheepLoop(herds + [after], turns + [t], g, ground, normalize, wolfPosition, source, dt)
  {
    var herds', turns' := herds + [after], turns + [t];
    forall k | 0 <= k < |turns'|
      ensures TurnTaken(herds'[k], k, g, ground, normalize, wolfPosition, source, dt, turns'[k], herds'[k + 1])
    {
      if k < |turns| {
        assert herds'[k] == herds[k] && herds'[k + 1] == herds[k + 1] && turns'[k] == turns[k];
      }
    }
  }

  /** What `Sheep::update` on sheep `i` guarantees about the vector, as the sheep
      loop uses it. */
  predicate SheepTurn(before: seq<S.Sheep>, after: seq<S.Sheep>, i: int, dt: real)
  {
    && 0 <= i < |before| <= |after| <= |before| + 1
    && after[i].sheepToMate != i
    && (!before[i].isAlive || before[i].health <= 0.0 ==> !after[i].isAlive)
    && (before[i].isAlive && before[i].health > 0.0 ==> after[i].isAlive && after[i].age == before[i].age + dt)
    && (forall k :: 0 <= k < |before| && k != i ==> SB.SameBody(after[k], before[k]))
    && (forall k :: |before| <= k < |after| ==> after[k].isAlive && after[k].age == 0.0 && after[k].sheepToMate == -1)
  }

  /** One turn of the sheep loop keeps SheepPassAt, one sheep further on. */
  lemma SheepTurnAdvances(before: seq<S.Sheep>, after: seq<S.Sheep>, orig: seq<S.Sheep>, i: int,
                          b: Rectangle, dt: real)
    requires SheepPassAt(before, orig, i, b, dt) && i < |orig| && SheepTurn(before, after, i, dt)
    ensures SheepPassAt(after[i := ContainSheep(after[i], b)], orig, i + 1, b, dt)
  {
    if Fits(after[i].radius, b) {
      ContainEffect(after[i].position, after[i].direction, after[i].radius, b);
    }
  }

  /** One turn of the sheep loop: `Sheep::update` and `contain_within_bounds` on
      sheep `i`. */
  method UpdateOneSheep(w: World, i: int, dt: real, ghost orig: seq<S.Sheep>) returns (ghost t: Turn)
    requires w.Valid() && SheepPassAt(w.sheep, orig, i, w.grid.Bounds(), dt) && i < |orig|
    modifies w, w.grass, w.manure, w.rng
    ensures TurnTaken(Herd(old(w.sheep), old(w.grass[..]), old(w.manure[..]), old(w.rng.next)), i, w.grid, w.ground[..],
                      w.normalize, w.wolf.position, w.rng.source, dt, t, Herd(w.sheep, w.grass[..], w.manure[..], w.rng.next))
    ensures SheepPassAt(w.sheep, orig, i + 1, w.grid.Bounds(), dt)
    ensures w.wolf == old(w.wolf) && w.herder == old(w.herder) && w.running == old(w.running)
  {
    ghost var before := w.sheep;
    t := UpdateAndContain(w, i, dt);
    SheepTurnAdvances(before, t.updated, orig, i, w.grid.Bounds(), dt);
  }

  /** The body of one turn of the sheep loop, as TurnTaken says; SheepTurn sums up
      what `Sheep::update` left before the containment. */
  method UpdateAndContain(w: World, i: int, dt: real) returns (ghost t: Turn)
    requires w.Valid() && 0 <= i < |w.sheep| && w.sheep[i].sheepToMate != i
    modifies w, w.grass, w.manure, w.rng
    ensures TurnTaken(Herd(old(w.sheep), old(w.grass[..]), old(w.manure[..]), old(w.rng.next)), i, w.grid, w.ground[..],
                      w.normalize, w.wolf.position, w.rng.source, dt, t, Herd(w.sheep, w.grass[..], w.manure[..], w.rng.next))
    ensures SheepTurn(old(w.sheep), t.updated, i, dt)
    ensures w.sheep == t.updated[i := ContainSheep(t.updated[i], w.grid.Bounds())]
    ensures w.wolf == old(w.wolf) && w.herder == old(w.herder) && w.running == old(w.running)
  {
    t := UpdateSheepAt(w, i, dt);
    w.sheep := w.sheep[i := ContainSheep(w.sheep[i], w.grid.Bounds())];
  }

  /** `Sheep::update` on sheep `i`, summed up by SheepTurn. */
  method UpdateSheepAt(w: World, i: int, dt: real) returns (ghost t: Turn)
    requires w.Valid() && 0 <= i < |w.sheep| && w.sheep[i].sheepToMate != i
    modifies w, w.grass, w.manure, w.rng
    ensures SB.Updated(old(w.sheep), old(w.grass[..]), old(w.manure[..]), i, w.grid, w.ground[..], w.normalize,
                       w.wolf.position, w.rng.source, old(w.rng.next), dt, t.sensed, t.thought, w.sheep, w.grass[..],
                       w.manure[..], w.rng.next)
    ensures t.updated == w.sheep && SheepTurn(old(w.sheep), w.sheep, i, dt)
    ensures w.wolf == old(w.wolf) && w.herder == old(w.herder) && w.running == old(w.running)
  {
    ghost var before := w.sheep;
    var sensed, thought := SB.Update(w, i, dt);
    t := Turn(sensed, thought, w.sheep);
    assert |before| <= |w.sheep| <= |before| + 1;
    assert forall k :: |before| <= k < |w.sheep| ==> k == |before| && w.sheep[k] == S.NewSheep(before[i].position);
  }

  /** The values the end of `World::update` passes through: the wolf and the sheep
      after the wolf's sense cadence, the wolf after its think cadence, the herder
      after the wolf, and the herder's search result. */
  datatype Chase = Chase(sensed: W.Wolf, sensedSheep: seq<S.Sheep>, thought: W.Wolf, bitten: H.Herder,
                         searched: seq<Point>)

  /** The end of `World::update` on values: `Wolf::update` (the sense cadence, the
      think cadence and Act, with the herder tests of the wolf's tile), then
      `contain_within_bounds` on the wolf, then `Herder::Update` from the herder the
      wolf left. */
  ghost predicate PredatorAndHerderUpdated(wolf: W.Wolf, sheep: seq<S.Sheep>, herder: H.Herder, g: Grid,
                                           ground: seq<Ground>, normalize: Vector2 -> Vector2, nearby: bool,
                                           tooClose: bool, source: nat -> nat, first: nat, dt: real,
                                           mouseDown: bool, mouse: Vector2, c: Chase,
                                           wolf': W.Wolf, sheep': seq<S.Sheep>, herder': H.Herder, next: nat)
  {
    && |ground| == g.Count() && g.WellFormed() && 0 <= g.offset.x && 0 <= g.offset.y
    && WB.SenseTicked(wolf, sheep, g, ground, nearby, tooClose, g.PositionToTile(herder.position), source, first, dt,
                      c.sensed, c.sensedSheep, next)
    && (c.thought, sheep', c.bitten) == WB.ThinkTicked(c.sensed, c.sensedSheep, herder, g, normalize, nearby,
                                                       tooClose, dt)
    && wolf' == ContainWolf(W.Act(c.thought, dt), g.Bounds())
    && HB.Updated(c.bitten, g, ground, normalize, dt, mouseDown, mouse, c.searched, herder')
  }

  /** `World::update`: an escape key released stops the simulation; then, in this
      order, the grass loop (GrassPass of the layers as they were), the sheep loop
      (SheepLoop, from the state the grass loop left, with its trace `herds` and
      `turns`), the manure loop (ManurePass of the state the sheep loop left), and the
      wolf and the herder (PredatorAndHerderUpdated, from the state the manure loop
      left, through `chase`); the running flag is returned. Besides, sheep are never
      removed; every sheep present at the start ends inside the world bounds, as
      does the wolf (the herder is not contained); no dead sheep comes back to life
      and a sheep whose health is gone dies; the newborn lambs are live and without a
      mate. */
  method Update(w: World, dt: real, escapeReleased: bool, mouseDown: bool, mouse: Vector2)
    returns (running: bool, ghost herds: seq<Herd>, ghost turns: seq<Turn>, ghost chase: Chase)
    requires w.Valid() && MatesAreOthers(w.sheep)
    modifies w, w.ground, w.grass, w.manure, w.rng
    ensures running == w.running && w.running == (old(w.running) && !escapeReleased)
    ensures var g := w.grid; var n := |old(w.sheep)|;
      var grassed := GrassPass(g, old(w.ground[..]), old(w.grass[..]), 0, dt, w.rng.source, old(w.rng.next));
      && SheepLoop(herds, turns, g, old(w.ground[..]), w.normalize, old(w.wolf).position, w.rng.source, dt)
      && |turns| == n
      && herds[0] == Herd(old(w.sheep), grassed.0, old(w.manure[..]), grassed.1)
      && |herds[n].grass| == g.Count() && |herds[n].manure| == g.Count()
      && var manured := ManurePass(g, MB.Layers(old(w.ground[..]), herds[n].grass, herds[n].manure), 0, dt,
                                   w.rng.source, herds[n].next);
         && manured.0 == MB.Layers(w.ground[..], w.grass[..], w.manure[..])
         && var c := g.PositionToTile(old(w.wolf).position);
            PredatorAndHerderUpdated(old(w.wolf), herds[n].sheep, old(w.herder), g, w.ground[..], w.normalize,
                                     old(w.IsHerderNearby(c)), old(w.IsHerderTooClose(c)), w.rng.source, manured.1,
                                     dt, mouseDown, mouse, chase, w.wolf, w.sheep, w.herder, w.rng.next)
    ensures SheepPassAt(w.sheep, old(w.sheep), |old(w.sheep)|, w.grid.Bounds(), dt)
    ensures var b := w.grid.Bounds(); Fits(w.wolf.radius, b) ==> Contained(w.wolf.position, w.wolf.radius, b)
  {
    if escapeReleased {
      w.running := false;
    }
    herds, turns := UpdateGrassAndSheep(w, dt);
    chase := UpdateManureAndChase(w, dt, mouseDown, mouse, old(w.sheep));
    running := w.running;
  }

  /** The first two phases of `World::update`: the grass loop, then the sheep loop
      on the grown grass. */
  method UpdateGrassAndSheep(w: World, dt: real) returns (ghost herds: seq<Herd>, ghost turns: seq<Turn>)
    requires w.Valid() && MatesAreOthers(w.sheep)
    modifies w, w.grass, w.manure, w.rng
    ensures var grassed := GrassPass(w.grid, w.ground[..], old(w.grass[..]), 0, dt, w.rng.source, old(w.rng.next));
      && SheepLoop(herds, turns, w.grid, w.ground[..], w.normalize, w.wolf.position, w.rng.source, dt)
      && |turns| == |old(w.sheep)|
      && herds[0] == Herd(old(w.sheep), grassed.0, old(w.manure[..]), grassed.1)
      && herds[|turns|] == Herd(w.sheep, w.grass[..], w.manure[..], w.rng.next)
    ensures SheepPassAt(w.sheep, old(w.sheep), |old(w.sheep)|, w.grid.Bounds(), dt)
    ensures w.wolf == old(w.wolf) && w.herder == old(w.herder) && w.running == old(w.running)
  {
    UpdateGrass(w, dt);
    herds, turns := UpdateSheep(w, dt);
  }

  /** The last three phases of `World::update`: the manure loop, then the wolf and
      the herder on the new layers and draws. What the sheep loop established about
      the herd (SheepPassAt against the herd `orig` it started from) still holds. */
  method UpdateManureAndChase(w: World, dt: real, mouseDown: bool, mouse: Vector2, ghost orig: seq<S.Sheep>)
    returns (ghost chase: Chase)
    requires w.Valid() && SheepPassAt(w.sheep, orig, |orig|, w.grid.Bounds(), dt)
    modifies w, w.ground, w.grass, w.manure, w.rng
    ensures var manured := ManurePass(w.grid, MB.Layers(old(w.ground[..]), old(w.grass[..]), old(w.manure[..])), 0, dt,
                                      w.rng.source, old(w.rng.next));
      && manured.0 == MB.Layers(w.ground[..], w.grass[..], w.manure[..])
      && var c := w.grid.PositionToTile(old(w.wolf).position);
         PredatorAndHerderUpdated(old(w.wolf), old(w.sheep), old(w.herder), w.grid, w.ground[..], w.normalize,
                                  old(w.IsHerderNearby(c)), old(w.IsHerderTooClose(c)), w.rng.source, manured.1,
                                  dt, mouseDown, mouse, chase, w.wolf, w.sheep, w.herder, w.rng.next)
    ensures w.running == old(w.running) && |w.sheep| == |old(w.sheep)|
    ensures forall k :: 0 <= k < |w.sheep| ==>
      && w.sheep[k].position == old(w.sheep)[k].position && w.sheep[k].radius == old(w.sheep)[k].radius
      && w.sheep[k].isAlive == old(w.sheep)[k].isAlive && w.sheep[k].age == old(w.sheep)[k].age
      && w.sheep[k].sheepToMate == old(w.sheep)[k].sheepToMate
    ensures var b := w.grid.Bounds(); Fits(w.wolf.radius, b) ==> Contained(w.wolf.position, w.wolf.radius, b)
    ensures SheepPassAt(w.sheep, orig, |orig|, w.grid.Bounds(), dt)
  {
    UpdateManure(w, dt);
    chase := UpdatePredatorAndHerder(w, dt, mouseDown, mouse);
  }

  /** The end of `World::update`: the wolf is updated and contained, then the herder
      is updated, as PredatorAndHerderUpdated says. Besides, the wolf only bites and
      marks sheep, so every sheep keeps its place, size, life, age and mate. */
  method UpdatePredatorAndHerder(w: World, dt: real, mouseDown: bool, mouse: Vector2) returns (ghost chase: Chase)
    requires w.Valid()
    modifies w, w.rng
    ensures var c := w.grid.PositionToTile(old(w.wolf).position);
      PredatorAndHerderUpdated(old(w.wolf), old(w.sheep), old(w.herder), w.grid, w.ground[..], w.normalize,
                               old(w.IsHerderNearby(c)), old(w.IsHerderTooClose(c)), w.rng.source, old(w.rng.next),
                               dt, mouseDown, mouse, chase, w.wolf, w.sheep, w.herder, w.rng.next)
    ensures w.running == old(w.running) && |w.sheep| == |old(w.sheep)|
    ensures forall k :: 0 <= k < |w.sheep| ==>
      && w.sheep[k].position == old(w.sheep)[k].position && w.sheep[k].radius == old(w.sheep)[k].radius
      && w.sheep[k].isAlive == old(w.sheep)[k].isAlive && w.sheep[k].age == old(w.sheep)[k].age
      && w.sheep[k].sheepToMate == old(w.sheep)[k].sheepToMate
    ensures var b := w.grid.Bounds(); Fits(w.wolf.radius, b) ==> Contained(w.wolf.position, w.wolf.radius, b)
  {
    var sensed, sensedSheep, thought := UpdateWolf(w, dt);
    var bitten := w.herder;
    var searched := HB.Update(w, dt, mouseDown, mouse);
    chase := Chase(sensed, sensedSheep, thought, bitten, searched);
  }

  /** `Wolf::update` followed by `contain_within_bounds` on the wolf. */
  method UpdateWolf(w: World, dt: real) returns (ghost sensed: W.Wolf, ghost sensedSheep: seq<S.Sheep>,
                                                 ghost thought: W.Wolf)
    requires w.Valid()
    modifies w, w.rng
    ensures var c := w.grid.PositionToTile(old(w.wolf).position);
      var nearby := old(w.IsHerderNearby(c)); var tooClose := old(w.IsHerderTooClose(c));
      && WB.SenseTicked(old(w.wolf), old(w.sheep), w.grid, w.ground[..], nearby, tooClose,
                        w.grid.PositionToTile(old(w.herder).position), w.rng.source, old(w.rng.next), dt,
                        sensed, sensedSheep, w.rng.next)
      && (thought, w.sheep, w.herder) == WB.ThinkTicked(sensed, sensedSheep, old(w.herder), w.grid, w.normalize,
                                                        nearby, tooClose, dt)
      && w.wolf == ContainWolf(W.Act(thought, dt), w.grid.Bounds())
    ensures w.running == old(w.running) && |w.sheep| == |old(w.sheep)|
    ensures forall k :: 0 <= k < |w.sheep| ==>
      && w.sheep[k].position == old(w.sheep)[k].position && w.sheep[k].radius == old(w.sheep)[k].radius
      && w.sheep[k].isAlive == old(w.sheep)[k].isAlive && w.sheep[k].age == old(w.sheep)[k].age
      && w.sheep[k].sheepToMate == old(w.sheep)[k].sheepToMate
    ensures var b := w.grid.Bounds(); Fits(w.wolf.radius, b) ==> Contained(w.wolf.position, w.wolf.radius, b)
  {
    sensed, sensedSheep, thought := WB.Update(w, dt);
    var b := w.grid.Bounds();
    if Fits(w.wolf.radius, b) {
      ContainEffect(w.wolf.position, w.wolf.direction, w.wolf.radius, b);
    }
    w.wolf := ContainWolf(w.wolf, b);
  }
}
