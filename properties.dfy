/**
 * What the game's rules promise, proved about the functions of module Rules:
 * the nearest-star scan, collision and energy outcomes of the craft's tick,
 * the build commands, the colonization state machine, star generation, and an
 * invariant of the whole world that every tick preserves.
 */
module Properties {
  import opened Rules

  // ------------------------------------------------------ the nearest star

  /**
   * Among the first n values, k is the first index holding the smallest one:
   * no value is smaller and every earlier value is strictly larger.
   */
  ghost predicate IsFirstMin(d: seq<real>, n: nat, k: int)
    requires n <= |d|
  {
    0 <= k < n &&
    (forall j :: 0 <= j < n ==> d[k] <= d[j]) &&
    (forall j :: 0 <= j < k ==> d[k] < d[j])
  }

  lemma {:induction false} FirstMinIndexSound(d: seq<real>, n: nat)
    requires n <= |d|
    ensures FirstMinIndex(d, n).Some? ==> IsFirstMin(d, n, FirstMinIndex(d, n).value)
  {
    if n > 0 {
      FirstMinIndexSound(d, n - 1);
    }
  }

  /** The running-minimum scan ends exactly on the first smallest element. */
  lemma FirstMinIndexIsFirstMinimum(d: seq<real>, n: nat, k: int)
    requires n <= |d|
    ensures FirstMinIndex(d, n) == Some(k) <==> IsFirstMin(d, n, k)
  {
    FirstMinIndexSound(d, n);
    if IsFirstMin(d, n, k) {
      var r := FirstMinIndex(d, n).value;
      assert IsFirstMin(d, n, r);
    }
  }

  // ------------------------------------------------------------ collisions

  /** FirstCollision is the first colliding star, or the end of the list when none collides. */
  lemma {:induction false} FirstCollisionIsFirst(stars: seq<StarData>, dist: seq<real>)
    requires |dist| == |stars|
    ensures var c := FirstCollision(stars, dist);
      (forall j :: 0 <= j < c ==> !Collides(stars[j], dist[j])) &&
      (c < |stars| ==> Collides(stars[c], dist[c]))
    decreases |stars|
  {
    if |stars| > 0 && !Collides(stars[0], dist[0]) {
      FirstCollisionIsFirst(stars[1..], dist[1..]);
      var c := FirstCollision(stars, dist);
      forall j | 0 <= j < c
        ensures !Collides(stars[j], dist[j])
      {
        if j > 0 {
          assert stars[j] == stars[1..][j - 1] && dist[j] == dist[1..][j - 1];
        }
      }
    }
  }

  /** When no star before i collides and star i collides (or i is the end), i is the first collision. */
  lemma {:induction false} FirstCollisionAt(stars: seq<StarData>, dist: seq<real>, i: nat)
    requires |dist| == |stars| && i <= |stars|
    requires forall j :: 0 <= j < i ==> !Collides(stars[j], dist[j])
    requires i < |stars| ==> Collides(stars[i], dist[i])
    ensures FirstCollision(stars, dist) == i
    decreases i
  {
    if i > 0 {
      FirstCollisionAt(stars[1..], dist[1..], i - 1);
    }
  }

  /**
   * When the gravity pass stops at index i (at the first colliding star, or
   * at the end of the list when no star collides), it has looked at i + 1
   * stars, or at all of them.
   */
  lemma ScanStopsAt(stars: seq<StarData>, dist: seq<real>, i: nat)
    requires |dist| == |stars| && i <= |stars|
    requires forall j :: 0 <= j < i ==> !Collides(stars[j], dist[j])
    requires i < |stars| ==> Collides(stars[i], dist[i])
    ensures FirstCollision(stars, dist) == i
    ensures ScanLength(stars, dist) == if i < |stars| then i + 1 else i
  {
    FirstCollisionAt(stars, dist, i);
  }

  // ------------------------------------------------------ the craft's tick

  /** A dead craft is frozen, and a tick never brings a dead craft back. */
  lemma ArkTickAliveOnlyFalls(a: ArkState, stars: seq<StarData>, k: Keys, p: Physics)
    requires p.Fits(|stars|)
    ensures var t := ArkTick(a, stars, k, p);
      (t.ark.alive ==> a.alive) &&
      (!a.alive ==> t == Tick(a, None, Fin(0.0)))
  {
  }

  /**
   * Steering: the left key turns the heading by -0.08 and the right key by
   * +0.08; when the up key is held with positive fuel and energy, the thrust
   * costs 0.3 fuel and 0.1 energy and adds 0.15 along the new heading to the
   * velocity. Nothing else changes.
   */
  lemma SteeringAndThrust(a: ArkState, k: Keys, p: Physics)
    ensures var r := Steered(a, k, p);
      var turned := a.angle + (if k.left then -0.08 else 0.0) + (if k.right then 0.08 else 0.0);
      if k.up && a.fuel > 0.0 && a.energy > 0.0 then
        r == a.(angle := turned, fuel := a.fuel - 0.3, energy := a.energy - 0.1,
                vx := a.vx + 0.15 * p.cosHeading, vy := a.vy + 0.15 * p.sinHeading)
      else
        r == a.(angle := turned)
  {
  }

  /**
   * Thrust and resources over a whole tick: fuel drops by exactly 0.3 when
   * the thrust key is held with positive fuel and energy, and is otherwise
   * unchanged; matter and the energy capacity never change; the heading turns
   * by -0.08 for the left key and +0.08 for the right key.
   */
  lemma ArkTickFuel(a: ArkState, stars: seq<StarData>, k: Keys, p: Physics)
    requires p.Fits(|stars|) && a.alive
    ensures var t := ArkTick(a, stars, k, p);
      t.ark.fuel == (if k.up && a.fuel > 0.0 && a.energy > 0.0 then a.fuel - 0.3 else a.fuel) &&
      t.ark.matter == a.matter && t.ark.maxEnergy == a.maxEnergy &&
      t.ark.angle == a.angle + (if k.left then -0.08 else 0.0) + (if k.right then 0.08 else 0.0)
  {
  }

  /** The energy left after thrusting: THRUST_ENERGY less when the thrust fires. */
  function ThrustedEnergy(a: ArkState, k: Keys): real
  {
    if ThrustFires(a, k) then a.energy - THRUST_ENERGY else a.energy
  }

  /**
   * A collision with star c (the first colliding one) kills the craft with
   * the crash message and ends the tick: position and the energy cycle are
   * skipped, so energy only pays for thrust. The nearest star reported is the
   * first smallest distance among the stars up to and including c.
   */
  lemma ArkTickCrash(a: ArkState, stars: seq<StarData>, k: Keys, p: Physics, c: nat)
    requires p.Fits(|stars|) && a.alive && c < |stars|
    requires Collides(stars[c], p.dist[c])
    requires forall j :: 0 <= j < c ==> !Collides(stars[j], p.dist[j])
    ensures var t := ArkTick(a, stars, k, p);
      !t.ark.alive && t.ark.msg == Crashed &&
      t.ark.x == a.x && t.ark.y == a.y &&
      t.ark.energy == ThrustedEnergy(a, k) &&
      t.nearest.Some? && IsFirstMin(p.dist, c + 1, t.nearest.value) &&
      t.dist == Fin(p.dist[t.nearest.value])
  {
    FirstCollisionAt(stars, p.dist, c);
    FirstMinIndexSound(p.dist, c + 1);
  }

  /** A tick crashes exactly when some star is within its radius plus CRASH_MARGIN. */
  lemma ArkTickCrashIff(a: ArkState, stars: seq<StarData>, k: Keys, p: Physics)
    requires p.Fits(|stars|) && a.alive
    ensures var t := ArkTick(a, stars, k, p);
      (t.ark.msg == Crashed && !t.ark.alive) <==>
      exists j :: 0 <= j < |stars| && Collides(stars[j], p.dist[j])
  {
    FirstCollisionIsFirst(stars, p.dist);
    var c := FirstCollision(stars, p.dist);
    if c == |stars| {
      var pulled := Pulled(Steered(a, k, p), stars, p);
      assert pulled.msg == a.msg;
      assert a.msg == Crashed ==> a.alive;
    }
  }

  /**
   * A tick without collision: the craft moves by its new velocity, gains
   * solar energy from the nearest star (the first smallest distance), pays
   * LIFE_SUPPORT, is capped at maxEnergy, and stays alive exactly when the
   * resulting energy is positive.
   */
  lemma ArkTickFlight(a: ArkState, stars: seq<StarData>, k: Keys, p: Physics)
    requires p.Fits(|stars|) && a.alive
    requires forall j :: 0 <= j < |stars| ==> !Collides(stars[j], p.dist[j])
    ensures var t := ArkTick(a, stars, k, p);
      var gain := if t.nearest.Some? then SolarGain(stars[t.nearest.value].mass, p.dist[t.nearest.value], a.solarPanels) else 0.0;
      var before := ThrustedEnergy(a, k) + gain - LIFE_SUPPORT;
      (t.nearest.Some? <==> |stars| > 0) &&
      (t.nearest.Some? ==> IsFirstMin(p.dist, |stars|, t.nearest.value) && t.dist == Fin(p.dist[t.nearest.value])) &&
      t.ark.energy == (if before > a.maxEnergy then a.maxEnergy else before) &&
      t.ark.energy <= t.ark.maxEnergy &&
      (t.ark.alive <==> t.ark.energy > 0.0) &&
      (!t.ark.alive ==> t.ark.msg == EnergyDepleted) &&
      t.ark.x == a.x + t.ark.vx && t.ark.y == a.y + t.ark.vy
  {
    FirstCollisionAt(stars, p.dist, |stars|);
    FirstMinIndexSound(p.dist, |stars|);
  }

  // --------------------------------------------------------- build commands

  /** Battery upgrade: fires exactly when matter >= 50, then trades 50 matter for 100 capacity. */
  lemma BatteryUpgrade(a: ArkState)
    ensures var r := BuildBattery(a);
      (a.matter >= BATTERY_MATTER ==>
         r == a.(matter := a.matter - 50.0, maxEnergy := a.maxEnergy + 100.0, msg := BatteryUpgraded)) &&
      (a.matter < BATTERY_MATTER ==> r == a) &&
      (a.matter >= 0.0 ==> r.matter >= 0.0)
  {
  }

  /**
   * Fuel synthesis: fires exactly when matter >= 20 and energy >= 50, then
   * trades 20 matter and 50 energy for 50 fuel.
   */
  lemma FuelSynthesis(a: ArkState)
    ensures var r := SynthesizeFuel(a);
      (a.matter >= FUEL_MATTER && a.energy >= FUEL_ENERGY ==>
         r == a.(matter := a.matter - 20.0, energy := a.energy - 50.0, fuel := a.fuel + 50.0,
                 msg := FuelSynthesized)) &&
      (!(a.matter >= FUEL_MATTER && a.energy >= FUEL_ENERGY) ==> r == a) &&
      (a.matter >= 0.0 ==> r.matter >= 0.0)
  {
  }

  // ------------------------------------------------------------ colonization

  /** Only the nearest star can change, and only while it is not yet colonized. */
  lemma ColonizeTouchesOnlyNearest(w: World, n: Option<nat>, dist: Extended, speed: real)
    requires n.Some? ==> n.value < |w.stars| && dist.Fin?
    ensures var r := Colonize(w, n, dist, speed);
      |r.stars| == |w.stars| && r.maxDistGen == w.maxDistGen &&
      (forall j :: 0 <= j < |w.stars| && (n != Some(j) || w.stars[j].colonized) ==> r.stars[j] == w.stars[j]) &&
      (n.None? || w.stars[n.value].colonized ==> r == w)
  {
  }

  /**
   * In the zone and slow: progress rises by exactly COLONIZE_SPEED; reaching
   * 100 colonizes the star, counts it, and resupplies the craft (matter and
   * fuel +200, energy refilled to capacity).
   */
  lemma ColonizeInZoneSlow(w: World, i: nat, d: real, speed: real)
    requires i < |w.stars| && !w.stars[i].colonized
    requires InZone(w.stars[i], d) && speed < SLOW_SPEED
    ensures var r := Colonize(w, Some(i), Fin(d), speed);
      var p := w.stars[i].progress + 0.3;
      r.stars == w.stars[i := w.stars[i].(progress := p, colonized := p >= 100.0)] &&
      (p >= 100.0 ==>
         r.colonizedCount == w.colonizedCount + 1 &&
         r.ark == w.ark.(matter := w.ark.matter + 200.0, fuel := w.ark.fuel + 200.0,
                         energy := w.ark.maxEnergy, msg := ColonizationComplete)) &&
      (p < 100.0 ==> r.colonizedCount == w.colonizedCount && r.ark == w.ark.(msg := Colonizing(Trunc(p))))
  {
  }

  /** In the zone but too fast: nothing but the status message changes. */
  lemma ColonizeInZoneFast(w: World, i: nat, d: real, speed: real)
    requires i < |w.stars| && !w.stars[i].colonized
    requires InZone(w.stars[i], d) && speed >= SLOW_SPEED
    ensures Colonize(w, Some(i), Fin(d), speed) == w.(ark := w.ark.(msg := TooFast))
  {
  }

  /** Outside the zone: positive progress decays by DECAY; nothing else changes. */
  lemma ColonizeOutOfZone(w: World, i: nat, d: real, speed: real)
    requires i < |w.stars| && !w.stars[i].colonized && !InZone(w.stars[i], d)
    ensures var p := w.stars[i].progress;
      Colonize(w, Some(i), Fin(d), speed) ==
        if p > 0.0 then w.(stars := w.stars[i := w.stars[i].(progress := p - 0.1)]) else w
  {
  }

  /** Applying the in-zone, slow rule n times to an uncolonized star. */
  function RepeatColonize(w: World, i: nat, d: real, speed: real, n: nat): World
    requires i < |w.stars|
  {
    if n == 0 then w
    else
      var v := RepeatColonize(w, i, d, speed, n - 1);
      if i < |v.stars| then Colonize(v, Some(i), Fin(d), speed) else v
  }

  /**
   * Starting from zero progress, a craft holding still in the zone colonizes
   * the star on exactly the 334th tick, when progress reaches 100.2 (not 100):
   * after fewer ticks the star is uncolonized with progress 0.3 per tick.
   */
  lemma {:induction false} ColonizationTakes334Ticks(w: World, i: nat, d: real, speed: real, n: nat)
    requires i < |w.stars| && !w.stars[i].colonized && w.stars[i].progress == 0.0
    requires InZone(w.stars[i], d) && speed < SLOW_SPEED && n <= 334
    ensures var v := RepeatColonize(w, i, d, speed, n);
      |v.stars| == |w.stars| && v.stars[i].hzMin == w.stars[i].hzMin && v.stars[i].hzMax == w.stars[i].hzMax &&
      v.stars[i].progress == 0.3 * n as real &&
      (v.stars[i].colonized <==> n == 334) &&
      v.colonizedCount == w.colonizedCount + (if n == 334 then 1 else 0)
    decreases n
  {
    if n > 0 {
      ColonizationTakes334Ticks(w, i, d, speed, n - 1);
      var v := RepeatColonize(w, i, d, speed, n - 1);
      ColonizeInZoneSlow(v, i, d, speed);
    }
  }

  // ------------------------------------------------------------ status text

  /** The status line shows the colonization percent as decimal digits, e.g. 99. */
  lemma ColonizingText()
    ensures StatusText(Colonizing(99)) == "Colonizing... 99%"
    ensures StatusText(Colonizing(0)) == "Colonizing... 0%"
  {
  }

  // ---------------------------------------------------------- star generation

  /**
   * A star is generated exactly when the craft is more than GEN_DISTANCE
   * beyond the recorded distance; the record then becomes the craft's
   * distance, and the list grows by one star appended at the end, whose level
   * is the old length. Otherwise nothing changes.
   */
  lemma GenerateAppendsOne(w: World, e: Env)
    ensures var r := Generate(w, e);
      r.maxDistGen >= w.maxDistGen &&
      (GenerationDue(w, e.originDist) ==>
         r.maxDistGen == e.originDist &&
         r.stars == w.stars + [NewStar(e.spawnX, e.spawnY, |w.stars|, e.spawnRadius)] &&
         r.stars[|w.stars|].level == |w.stars| &&
         !GenerationDue(r, e.originDist)) &&
      (!GenerationDue(w, e.originDist) ==> r == w)
  {
  }

  // ------------------------------------------------------ the world invariant

  /** Progress always moves in steps of a tenth. */
  ghost predicate OnGrid(x: real)
  {
    (x * 10.0).Floor as real == x * 10.0
  }

  ghost predicate StarInv(s: StarData, i: int)
  {
    MIN_RADIUS <= s.radius <= MAX_RADIUS && s.mass == s.radius * 120 &&
    s.hzMin == s.radius as real * 4.0 && s.hzMax == s.radius as real * 7.0 &&
    s.level == i && OnGrid(s.progress) &&
    (if s.colonized then FULL_PROGRESS <= s.progress <= FULL_PROGRESS + 0.2
     else 0.0 <= s.progress < FULL_PROGRESS)
  }

  ghost predicate ArkInv(a: ArkState)
  {
    a.energy <= a.maxEnergy && a.maxEnergy >= START_ENERGY &&
    a.matter >= 0.0 && a.fuel > -THRUST_FUEL &&
    (a.alive ==> a.energy >= 0.0)
  }

  function CountColonized(stars: seq<StarData>): nat
  {
    if |stars| == 0 then 0
    else CountColonized(stars[..|stars| - 1]) + (if stars[|stars| - 1].colonized then 1 else 0)
  }

  /**
   * The state every reachable world is in: well-formed stars whose level is
   * their position, progress in steps of 0.1 within [0, 100) while
   * uncolonized and within [100, 100.2] once colonized, the counter equal to
   * the number of colonized stars, energy within capacity, matter never
   * negative, fuel never below -THRUST_FUEL, and a living craft with no
   * negative energy.
   */
  ghost predicate Inv(w: World)
  {
    |w.stars| >= 1 &&
    (forall i :: 0 <= i < |w.stars| ==> StarInv(w.stars[i], i)) &&
    w.colonizedCount == CountColonized(w.stars) &&
    w.targetColonies == TARGET_COLONIES &&
    w.maxDistGen >= 0.0 &&
    ArkInv(w.ark)
  }

  lemma {:induction false} CountColonizedUpdate(stars: seq<StarData>, i: nat, s: StarData)
    requires i < |stars|
    ensures CountColonized(stars[i := s]) ==
      CountColonized(stars) - (if stars[i].colonized then 1 else 0) + (if s.colonized then 1 else 0)
    decreases |stars|
  {
    var n := |stars| - 1;
    if i < n {
      assert stars[i := s][..n] == stars[..n][i := s];
      CountColonizedUpdate(stars[..n], i, s);
    } else {
      assert stars[i := s][..n] == stars[..n];
    }
  }

  lemma CountColonizedAppend(stars: seq<StarData>, s: StarData)
    ensures CountColonized(stars + [s]) == CountColonized(stars) + (if s.colonized then 1 else 0)
  {
    assert (stars + [s])[..|stars|] == stars;
  }

  lemma InitialWorldInv(originRadius: int, vOrbit: real)
    requires MIN_RADIUS <= originRadius <= MAX_RADIUS
    ensures Inv(InitialWorld(originRadius, vOrbit))
  {
    var w := InitialWorld(originRadius, vOrbit);
    assert CountColonized(w.stars) == CountColonized([]) + 1;
  }

  lemma ArkTickKeepsArkInv(a: ArkState, stars: seq<StarData>, k: Keys, p: Physics)
    requires p.Fits(|stars|) && ArkInv(a)
    ensures ArkInv(ArkTick(a, stars, k, p).ark)
  {
    if a.alive {
      FirstCollisionIsFirst(stars, p.dist);
      var c := FirstCollision(stars, p.dist);
      if c < |stars| {
        ArkTickCrash(a, stars, k, p, c);
      } else {
        ArkTickFlight(a, stars, k, p);
      }
      ArkTickFuel(a, stars, k, p);
    }
  }

  lemma CommandsKeepArkInv(a: ArkState, k: Keys)
    requires ArkInv(a)
    ensures ArkInv(Commands(a, k))
  {
  }

  /** A tenth-step value below 100 is at most 99.9; a positive one is at least 0.1. */
  lemma OnGridBounds(x: real)
    requires OnGrid(x)
    ensures x < FULL_PROGRESS ==> x <= 99.9
    ensures x > 0.0 ==> x >= 0.1
  {
  }

  lemma ColonizeKeepsInv(w: World, n: Option<nat>, dist: Extended, speed: real)
    requires Inv(w) && (n.Some? ==> n.value < |w.stars| && dist.Fin?)
    ensures Inv(Colonize(w, n, dist, speed))
  {
    var r := Colonize(w, n, dist, speed);
    if n.Some? && !w.stars[n.value].colonized {
      var i := n.value;
      var s := w.stars[i];
      OnGridBounds(s.progress);
      assert OnGrid(s.progress + 0.3) && OnGrid(s.progress - 0.1) by {
        assert (s.progress + 0.3) * 10.0 == s.progress * 10.0 + 3.0;
        assert (s.progress - 0.1) * 10.0 == s.progress * 10.0 - 1.0;
      }
      if r.stars != w.stars {
        assert r.stars == w.stars[i := r.stars[i]];
        CountColonizedUpdate(w.stars, i, r.stars[i]);
      }
    }
  }

  lemma GenerateKeepsInv(w: World, e: Env)
    requires Inv(w) && e.Valid()
    ensures Inv(Generate(w, e))
  {
    if GenerationDue(w, e.originDist) {
      var s := NewStar(e.spawnX, e.spawnY, |w.stars|, e.spawnRadius);
      CountColonizedAppend(w.stars, s);
      assert OnGrid(s.progress);
    }
  }

  /** Every tick of the world keeps the world invariant. */
  lemma WorldTickPreservesInv(w: World, k: Keys, p: Physics, e: Env)
    requires Inv(w) && p.Fits(|w.stars|) && e.Valid()
    ensures Inv(WorldTick(w, k, p, e))
  {
    var t := ArkTick(w.ark, w.stars, k, p);
    ArkTickKeepsArkInv(w.ark, w.stars, k, p);
    if t.ark.alive {
      var built := w.(ark := Commands(t.ark, k));
      CommandsKeepArkInv(t.ark, k);
      ColonizeKeepsInv(built, t.nearest, t.dist, e.speed);
      GenerateKeepsInv(Colonize(built, t.nearest, t.dist, e.speed), e);
    }
  }

  /**
   * Across a tick the world only grows: existing stars keep their place and
   * physical data, colonized stars are never modified, at most one star is
   * added, the generation record never decreases, the colony count never
   * decreases, and a dead craft stays dead.
   */
  lemma WorldTickGrowOnly(w: World, k: Keys, p: Physics, e: Env)
    requires p.Fits(|w.stars|)
    ensures var r := WorldTick(w, k, p, e);
      |w.stars| <= |r.stars| <= |w.stars| + 1 &&
      (forall j :: 0 <= j < |w.stars| && w.stars[j].colonized ==> r.stars[j] == w.stars[j]) &&
      (forall j :: 0 <= j < |w.stars| ==>
         r.stars[j] == w.stars[j].(colonized := r.stars[j].colonized, progress := r.stars[j].progress)) &&
      r.maxDistGen >= w.maxDistGen &&
      r.colonizedCount >= w.colonizedCount &&
      (r.ark.alive ==> w.ark.alive)
  {
    var t := ArkTick(w.ark, w.stars, k, p);
    ArkTickAliveOnlyFalls(w.ark, w.stars, k, p);
    if t.ark.alive {
      var built := w.(ark := Commands(t.ark, k));
      ColonizeTouchesOnlyNearest(built, t.nearest, t.dist, e.speed);
      GenerateAppendsOne(Colonize(built, t.nearest, t.dist, e.speed), e);
    }
  }
}
