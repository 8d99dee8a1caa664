/**
 * The game's objects as they change in place: stars, the Ark craft, and the
 * GameWorld that owns them. Each mutating method is proved to leave its
 * object(s) in the state the corresponding function of module Rules gives.
 */
module Game {
  import opened Rules
  import opened Properties

  class Star {
    const x: real
    const y: real
    const level: int
    const radius: int
    const mass: int
    const hzMin: real
    const hzMax: real
    var colonized: bool
    var progress: real

    function Data(): StarData
      reads this
    {
      StarData(x, y, level, radius, mass, hzMin, hzMax, colonized, progress)
    }

    /** `radius` stands for the random integer drawn in [MIN_RADIUS, MAX_RADIUS]. */
    constructor (x: real, y: real, level: int, radius: int)
      requires MIN_RADIUS <= radius <= MAX_RADIUS
      ensures this.x == x && this.y == y && this.level == level && this.radius == radius
      ensures mass == radius * 120 && hzMin == 4.0 * radius as real && hzMax == 7.0 * radius as real
      ensures colonized <==> level == 0
      ensures progress == if level == 0 then 100.0 else 0.0
      ensures Data() == NewStar(x, y, level, radius)
    {
      this.x, this.y := x, y;
      this.level := level;
      this.radius := radius;
      mass := radius * 120;
      hzMin := radius as real * 4.0;
      hzMax := radius as real * 7.0;
      colonized := false;
      progress := 0.0;
      new;
      if level == 0 {
        colonized := true;
        progress := FULL_PROGRESS;
      }
    }
  }

  /** The values of a list of stars, in list order. */
  function Views(stars: seq<Star>): (r: seq<StarData>)
    reads stars
    ensures |r| == |stars|
    ensures forall i :: 0 <= i < |stars| ==> r[i] == stars[i].Data()
  {
    seq(|stars|, i reads stars requires 0 <= i < |stars| => stars[i].Data())
  }

  class Ark {
    var x: real
    var y: real
    var vx: real
    var vy: real
    var angle: real
    var energy: real
    var maxEnergy: real
    var fuel: real
    var matter: real
    const solarPanels: int
    var alive: bool
    var msg: Status

    function State(): ArkState
      reads this
    {
      ArkState(x, y, vx, vy, angle, energy, maxEnergy, fuel, matter, solarPanels, alive, msg)
    }

    /** `vOrbit` stands for the circular-orbit speed sqrt(G * mass / ORBIT_DIST). */
    constructor (start: Star, vOrbit: real)
      ensures State() == NewArk(start.x, start.y, vOrbit)
    {
      x := start.x;
      y := start.y - ORBIT_DIST;
      vx := vOrbit;
      vy := 0.0;
      angle := 0.0;
      energy := START_ENERGY;
      maxEnergy := START_ENERGY;
      fuel := START_FUEL;
      matter := START_MATTER;
      solarPanels := 1;
      alive := true;
      msg := SystemOnline;
    }

    /**
     * One tick of the craft. Returns the nearest star among those scanned
     * (null when there is none) and its distance.
     */
    method Update(stars: seq<Star>, keys: Keys, p: Physics) returns (nearest: Star?, minDist: Extended)
      requires p.Fits(|stars|)
      modifies this
      ensures !old(alive) ==> unchanged(this) && nearest == null && minDist == Fin(0.0)
      ensures alive ==> old(alive)
      ensures var t := ArkTick(old(State()), old(Views(stars)), keys, p);
        State() == t.ark && minDist == t.dist &&
        (if t.nearest.Some? then nearest == stars[t.nearest.value] else nearest == null)
    {
      if !alive {
        return null, Fin(0.0);
      }
      Steer(keys, p);
      nearest, minDist := Pull(stars, p);
      if !alive {
        return;
      }
      Recharge(if nearest == null then None else Some(nearest.mass),
               if minDist.Fin? then minDist.value else 0.0);
    }

    /** The reward for a new colony: matter and fuel, and energy refilled to capacity. */
    method Resupply()
      modifies this
      ensures State() == old(State()).(matter := old(matter) + REWARD_MATTER, fuel := old(fuel) + REWARD_FUEL,
                                       energy := old(maxEnergy), msg := ColonizationComplete)
    {
      matter := matter + REWARD_MATTER;
      fuel := fuel + REWARD_FUEL;
      energy := maxEnergy;
      msg := ColonizationComplete;
    }

    /** Rotation, then thrust if the key is held and fuel and energy are both positive. */
    method Steer(keys: Keys, p: Physics)
      modifies this
      ensures State() == Steered(old(State()), keys, p)
    {
      if keys.left { angle := angle - ROT_SPEED; }
      if keys.right { angle := angle + ROT_SPEED; }
      if keys.up {
        if fuel > 0.0 && energy > 0.0 {
          fuel := fuel - THRUST_FUEL;
          energy := energy - THRUST_ENERGY;
          vx := vx + p.cosHeading * THRUST_POWER;
          vy := vy + p.sinHeading * THRUST_POWER;
        }
      }
    }

    /**
     * The gravity pass over the stars in list order: adds the velocity change
     * of every star within GRAVITY_RANGE and marks the craft dead at the
     * first collision, where the pass stops.
     */
    method Pull(stars: seq<Star>, p: Physics) returns (nearest: Star?, minDist: Extended)
      requires p.Fits(|stars|)
      modifies this
      ensures State() == Pulled(old(State()), old(Views(stars)), p)
      ensures minDist == NearestDist(old(Views(stars)), p.dist)
      ensures var n := Nearest(old(Views(stars)), p.dist);
        if n.Some? then nearest == stars[n.value] else nearest == null
    {
      var crashed, gx, gy;
      crashed, gx, gy, nearest, minDist := Scan(stars, p);
      vx := vx + gx;
      vy := vy + gy;
      if crashed {
        alive := false;
        msg := Crashed;
      }
    }

    /**
     * The scan itself: tracks the nearest star (a later star replaces it only
     * when strictly nearer), sums the velocity changes of the stars within
     * GRAVITY_RANGE, and stops at the first star closer than its radius plus
     * CRASH_MARGIN.
     */
    static method Scan(stars: seq<Star>, p: Physics)
      returns (crashed: bool, gx: real, gy: real, nearest: Star?, minDist: Extended)
      requires p.Fits(|stars|)
      ensures var c := FirstCollision(Views(stars), p.dist);
        crashed == (c < |stars|) &&
        gx == GravitySum(p.dist, p.gravX, c) && gy == GravitySum(p.dist, p.gravY, c)
      ensures minDist == NearestDist(Views(stars), p.dist)
      ensures var n := Nearest(Views(stars), p.dist);
        if n.Some? then nearest == stars[n.value] else nearest == null
    {
      ghost var views := Views(stars);
      nearest := null;
      minDist := Inf;
      ghost var k: Option<nat> := None;
      gx, gy := 0.0, 0.0;
      crashed := false;
      var i := 0;
      while i < |stars|
        invariant 0 <= i <= |stars|
        invariant forall j :: 0 <= j < i ==> !Collides(views[j], p.dist[j])
        invariant k == FirstMinIndex(p.dist, i)
        invariant minDist == if k.Some? then Fin(p.dist[k.value]) else Inf
        invariant if k.Some? then nearest == stars[k.value] else nearest == null
        invariant gx == GravitySum(p.dist, p.gravX, i) && gy == GravitySum(p.dist, p.gravY, i)
        invariant !crashed
      {
        var d := p.dist[i];
        if Below(d, minDist) {
          minDist := Fin(d);
          nearest := stars[i];
          k := Some(i);
        }
        if d < stars[i].radius as real + CRASH_MARGIN {
          crashed := true;
          assert k == FirstMinIndex(p.dist, i + 1);
          break;
        }
        if d < GRAVITY_RANGE {
          gx := gx + p.gravX[i];
          gy := gy + p.gravY[i];
        }
        i := i + 1;
      }
      ScanStopsAt(views, p.dist, i);
    }

    /** Motion, solar recharge from the nearest star, life support, the cap, and depletion. */
    method Recharge(nearestMass: Option<int>, d: real)
      modifies this
      ensures State() == Flown(old(State()), nearestMass, d)
    {
      x := x + vx * DT;
      y := y + vy * DT;
      if nearestMass.Some? {
        energy := energy + SolarGain(nearestMass.value, d, solarPanels);
      }
      energy := energy - LIFE_SUPPORT;
      if energy > maxEnergy { energy := maxEnergy; }
      if energy <= 0.0 {
        alive := false;
        msg := EnergyDepleted;
      }
    }
  }

  class GameWorld {
    var stars: seq<Star>
    var ark: Ark
    var colonizedCount: int
    const targetColonies: int
    var maxDistGen: real

    /** Every star in the list is a distinct object. */
    ghost predicate Valid()
      reads this
    {
      forall i, j :: 0 <= i < j < |stars| ==> stars[i] != stars[j]
    }

    function View(): World
      reads this, ark, stars
    {
      World(ark.State(), Views(stars), colonizedCount, targetColonies, maxDistGen)
    }

    /** `originRadius` is the start star's random radius, `vOrbit` the craft's orbital speed. */
    constructor (originRadius: int, vOrbit: real)
      requires MIN_RADIUS <= originRadius <= MAX_RADIUS
      ensures Valid() && fresh(ark) && |stars| == 1 && fresh(stars[0])
      ensures View() == InitialWorld(originRadius, vOrbit) && Inv(View())
    {
      var origin := new Star(0.0, 0.0, 0, originRadius);
      stars := [origin];
      ark := new Ark(origin, vOrbit);
      colonizedCount := 1;
      targetColonies := TARGET_COLONIES;
      maxDistGen := 0.0;
      InitialWorldInv(originRadius, vOrbit);
    }

    /**
     * One tick of the world, driven by the held keys and the tick's physical
     * inputs; it keeps the world invariant.
     */
    method Update(keys: Keys, p: Physics, e: Env)
      requires Valid() && p.Fits(|stars|) && e.Valid()
      modifies this, ark, stars
      ensures Valid() && ark == old(ark)
      ensures |old(stars)| <= |stars| <= |old(stars)| + 1 && stars[..|old(stars)|] == old(stars)
      ensures |stars| > |old(stars)| ==> fresh(stars[|stars| - 1])
      ensures View() == WorldTick(old(View()), keys, p, e)
      ensures Inv(old(View())) ==> Inv(View())
    {
      ghost var w0 := View();
      Step(keys, p, e);
      if Inv(w0) {
        WorldTickPreservesInv(w0, keys, p, e);
      }
    }

    /** The craft's update, then (if it survived) build commands, colonization and generation. */
    method Step(keys: Keys, p: Physics, e: Env)
      requires Valid() && p.Fits(|stars|) && e.Valid()
      modifies this, ark, stars
      ensures Valid() && ark == old(ark)
      ensures |old(stars)| <= |stars| <= |old(stars)| + 1 && stars[..|old(stars)|] == old(stars)
      ensures |stars| > |old(stars)| ==> fresh(stars[|stars| - 1])
      ensures View() == WorldTick(old(View()), keys, p, e)
    {
      ghost var w0 := View();
      ghost var t := ArkTick(w0.ark, w0.stars, keys, p);
      var nearStar, dist := ark.Update(stars, keys, p);
      assert View() == w0.(ark := t.ark);
      if !ark.alive {
        return;
      }
      ApplyBuildCommands(keys);
      ghost var w1 := w0.(ark := Commands(t.ark, keys));
      assert View() == w1;
      ColonizeNearest(nearStar, t.nearest, dist, e.speed);
      assert View() == Colonize(w1, t.nearest, t.dist, e.speed);
      ExpandUniverse(e);
    }

    /** Spawns a star when the craft is GEN_DISTANCE farther from the origin than its record. */
    method ExpandUniverse(e: Env)
      requires Valid() && e.Valid()
      modifies this, ark
      ensures Valid() && ark == old(ark)
      ensures |old(stars)| <= |stars| <= |old(stars)| + 1 && stars[..|old(stars)|] == old(stars)
      ensures |stars| > |old(stars)| ==> fresh(stars[|stars| - 1])
      ensures View() == Generate(old(View()), e)
    {
      if e.originDist > maxDistGen + GEN_DISTANCE {
        maxDistGen := e.originDist;
        SpawnNewStar(e);
      }
    }

    /** Build key 1 upgrades the battery, build key 2 synthesizes fuel, each when affordable. */
    method ApplyBuildCommands(keys: Keys)
      modifies ark
      ensures ark.State() == Commands(old(ark.State()), keys)
    {
      if keys.one {
        if ark.matter >= BATTERY_MATTER {
          ark.matter := ark.matter - BATTERY_MATTER;
          ark.maxEnergy := ark.maxEnergy + BATTERY_CAPACITY;
          ark.msg := BatteryUpgraded;
        }
      }
      if keys.two {
        if ark.matter >= FUEL_MATTER && ark.energy >= FUEL_ENERGY {
          ark.matter := ark.matter - FUEL_MATTER;
          ark.energy := ark.energy - FUEL_ENERGY;
          ark.fuel := ark.fuel + FUEL_YIELD;
          ark.msg := FuelSynthesized;
        }
      }
    }

    /**
     * The colonization state machine on the nearest star (`n` is its index in
     * the star list): progress rises while the craft is in the habitable zone
     * and slow, and decays while it is outside; at 100 the star is colonized
     * and the craft resupplied.
     */
    method ColonizeNearest(nearStar: Star?, ghost n: Option<nat>, dist: Extended, speed: real)
      requires Valid()
      requires n.None? ==> nearStar == null
      requires n.Some? ==> n.value < |stars| && stars[n.value] == nearStar && dist.Fin?
      modifies this, ark, nearStar
      ensures stars == old(stars) && ark == old(ark) && maxDistGen == old(maxDistGen)
      ensures View() == Colonize(old(View()), n, dist, speed)
    {
      if nearStar != null && !nearStar.colonized {
        var inZone := nearStar.hzMin < dist.value < nearStar.hzMax;
        if inZone && speed < SLOW_SPEED {
          AdvanceColonization(nearStar, n.value);
        } else if inZone {
          ark.msg := TooFast;
        } else {
          DecayProgress(nearStar, n.value);
        }
      }
    }

    /** Progress on the nearest star `s` (at index i) rises; at 100 it is colonized and the craft resupplied. */
    method AdvanceColonization(s: Star, ghost i: nat)
      requires Valid() && i < |stars| && stars[i] == s
      modifies this, ark, s
      ensures stars == old(stars) && ark == old(ark) && maxDistGen == old(maxDistGen)
      ensures View() == Advanced(old(View()), i)
    {
      s.progress := s.progress + COLONIZE_SPEED;
      ark.msg := Colonizing(Trunc(s.progress));
      if s.progress >= FULL_PROGRESS {
        s.colonized := true;
        colonizedCount := colonizedCount + 1;
        ark.Resupply();
      }
      assert Views(stars) == old(Views(stars))[i := s.Data()];
    }

    /** Progress on the nearest star `s` (at index i), when positive, decays. */
    method DecayProgress(s: Star, ghost i: nat)
      requires Valid() && i < |stars| && stars[i] == s
      modifies s
      ensures View() == Decayed(old(View()), i)
    {
      if s.progress > 0.0 {
        s.progress := s.progress - DECAY;
        assert Views(stars) == old(Views(stars))[i := s.Data()];
      }
    }

    /** Appends a star at the spawn position given by `e`, its level the current star count. */
    method SpawnNewStar(e: Env)
      requires Valid() && e.Valid()
      modifies this, ark
      ensures Valid() && ark == old(ark)
      ensures |stars| == |old(stars)| + 1 && stars[..|old(stars)|] == old(stars) && fresh(stars[|stars| - 1])
      ensures View() == old(View()).(stars := old(View()).stars + [NewStar(e.spawnX, e.spawnY, |old(stars)|, e.spawnRadius)],
                                     ark := old(View()).ark.(msg := NewStarDetected))
    {
      var s := new Star(e.spawnX, e.spawnY, |stars|, e.spawnRadius);
      stars := stars + [s];
      ark.msg := NewStarDetected;
      assert Views(stars) == old(Views(stars)) + [s.Data()];
    }
  }
}
