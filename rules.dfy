/**
 * The discrete game-state rules of the arcade game "Entropy's Ark", as pure
 * functions on values. The classes in game.dfy are proved to change their
 * fields exactly as these functions say; properties.dfy proves what the rules
 * promise.
 *
 * Floating-point and trigonometric quantities (distances, gravity velocity
 * deltas, the heading's cosine and sine, the craft's speed, its distance from
 * the origin, the spawn position of a new star and its random radius) are
 * inputs of the rules, not computed by them.
 */
module Rules {

  datatype Option<T> = None | Some(value: T)

  /** A real number or positive infinity; the nearest-star scan starts at infinity. */
  datatype Extended = Fin(value: real) | Inf

  /** `d < m` where `m` may be infinite. */
  predicate Below(d: real, m: Extended)
  {
    m.Inf? || d < m.value
  }

  // Game constants.
  const DT: real := 1.0
  const ROT_SPEED: real := 0.08
  const THRUST_POWER: real := 0.15
  const COLONIZE_SPEED: real := 0.3
  const GEN_DISTANCE: real := 3000.0

  // Constants written inline in the game's update code.
  const THRUST_FUEL: real := 0.3
  const THRUST_ENERGY: real := 0.1
  const CRASH_MARGIN: real := 10.0
  const GRAVITY_RANGE: real := 5000.0
  const LIFE_SUPPORT: real := 0.2
  const SLOW_SPEED: real := 3.0
  const DECAY: real := 0.1
  const FULL_PROGRESS: real := 100.0
  const BATTERY_MATTER: real := 50.0
  const BATTERY_CAPACITY: real := 100.0
  const FUEL_MATTER: real := 20.0
  const FUEL_ENERGY: real := 50.0
  const FUEL_YIELD: real := 50.0
  const REWARD_MATTER: real := 200.0
  const REWARD_FUEL: real := 200.0

  // Star sizes and the craft's starting values.
  const MIN_RADIUS: int := 60
  const MAX_RADIUS: int := 90
  const ORBIT_DIST: real := 450.0
  const START_ENERGY: real := 500.0
  const START_FUEL: real := 500.0
  const START_MATTER: real := 200.0
  const TARGET_COLONIES: int := 5

  /** The status line of the craft; `StatusText` gives the text shown. */
  datatype Status =
    | SystemOnline
    | Crashed
    | EnergyDepleted
    | BatteryUpgraded
    | FuelSynthesized
    | Colonizing(percent: int)
    | ColonizationComplete
    | TooFast
    | NewStarDetected

  function DecimalDigits(n: nat): string
    decreases n
  {
    if n < 10 then ["0123456789"[n]] else DecimalDigits(n / 10) + ["0123456789"[n % 10]]
  }

  function IntText(i: int): string
  {
    if i < 0 then "-" + DecimalDigits(-i) else DecimalDigits(i)
  }

  function StatusText(s: Status): string
  {
    match s
    case SystemOnline => "System Online."
    case Crashed => "CRITICAL: Crashed into Star"
    case EnergyDepleted => "FAILURE: Energy Depleted (Frozen)"
    case BatteryUpgraded => "Battery Upgraded."
    case FuelSynthesized => "Fuel Synthesized."
    case Colonizing(p) => "Colonizing... " + IntText(p) + "%"
    case ColonizationComplete => "Colonization Complete! Supplies Added."
    case TooFast => "Too Fast to Colonize! Slow Down!"
    case NewStarDetected => "New Star System Detected."
  }

  /** Conversion of a real to an integer that truncates toward zero. */
  function Trunc(r: real): int
  {
    if r >= 0.0 then r.Floor else -((-r).Floor)
  }

  /** The keys held during one tick: arrows, and the build keys 1 and 2. */
  datatype Keys = Keys(left: bool, right: bool, up: bool, one: bool, two: bool)

  /**
   * Per-tick physical inputs of the craft's update: the cosine and sine of the
   * heading after rotation, and for every star (in list order) its distance
   * from the craft and the velocity change its gravity would cause.
   */
  datatype Physics = Physics(cosHeading: real, sinHeading: real,
                             dist: seq<real>, gravX: seq<real>, gravY: seq<real>)
  {
    predicate Fits(n: nat)
    {
      |dist| == n && |gravX| == n && |gravY| == n
    }
  }

  /**
   * Per-tick inputs of the world's update: the craft's speed and distance from
   * the origin after it moved, and where a star spawned this tick would be
   * placed and how large it would be.
   */
  datatype Env = Env(speed: real, originDist: real, spawnX: real, spawnY: real, spawnRadius: int)
  {
    predicate Valid()
    {
      MIN_RADIUS <= spawnRadius <= MAX_RADIUS
    }
  }

  datatype StarData = StarData(x: real, y: real, level: int, radius: int, mass: int,
                               hzMin: real, hzMax: real, colonized: bool, progress: real)

  datatype ArkState = ArkState(x: real, y: real, vx: real, vy: real, angle: real,
                               energy: real, maxEnergy: real, fuel: real, matter: real,
                               solarPanels: int, alive: bool, msg: Status)

  datatype World = World(ark: ArkState, stars: seq<StarData>, colonizedCount: int,
                         targetColonies: int, maxDistGen: real)

  /** What the craft's update hands back: its new state, the nearest star's index and distance. */
  datatype Tick = Tick(ark: ArkState, nearest: Option<nat>, dist: Extended)

  // ---------------------------------------------------------------- creation

  /** A star as built from its position, generation index and (random) radius. */
  function NewStar(x: real, y: real, level: int, radius: int): StarData
  {
    StarData(x, y, level, radius, radius * 120, radius as real * 4.0, radius as real * 7.0,
             level == 0, if level == 0 then FULL_PROGRESS else 0.0)
  }

  /** The craft, parked ORBIT_DIST above the start star with orbital speed `vOrbit`. */
  function NewArk(starX: real, starY: real, vOrbit: real): ArkState
  {
    ArkState(starX, starY - ORBIT_DIST, vOrbit, 0.0, 0.0,
             START_ENERGY, START_ENERGY, START_FUEL, START_MATTER, 1, true, SystemOnline)
  }

  function InitialWorld(originRadius: int, vOrbit: real): World
  {
    var origin := NewStar(0.0, 0.0, 0, originRadius);
    World(NewArk(origin.x, origin.y, vOrbit), [origin], 1, TARGET_COLONIES, 0.0)
  }

  // ------------------------------------------------------- the craft's tick

  function Rotate(angle: real, k: Keys): real
  {
    var a := if k.left then angle - ROT_SPEED else angle;
    if k.right then a + ROT_SPEED else a
  }

  predicate ThrustFires(a: ArkState, k: Keys)
  {
    k.up && a.fuel > 0.0 && a.energy > 0.0
  }

  function Thrust(a: ArkState, k: Keys, p: Physics): ArkState
  {
    if ThrustFires(a, k) then
      a.(fuel := a.fuel - THRUST_FUEL, energy := a.energy - THRUST_ENERGY,
         vx := a.vx + p.cosHeading * THRUST_POWER, vy := a.vy + p.sinHeading * THRUST_POWER)
    else a
  }

  predicate Collides(s: StarData, d: real)
  {
    d < s.radius as real + CRASH_MARGIN
  }

  /** Index of the first star the craft collides with, or |stars| when there is none. */
  function FirstCollision(stars: seq<StarData>, dist: seq<real>): (c: nat)
    requires |dist| == |stars|
    ensures c <= |stars|
    decreases |stars|
  {
    if |stars| == 0 then 0
    else if Collides(stars[0], dist[0]) then 0
    else 1 + FirstCollision(stars[1..], dist[1..])
  }

  /**
   * The index the running-minimum scan over the first n distances ends on: a
   * later element replaces the current one only when it is strictly smaller.
   */
  function FirstMinIndex(d: seq<real>, n: nat): (r: Option<nat>)
    requires n <= |d|
    ensures r.None? <==> n == 0
    ensures r.Some? ==> r.value < n
  {
    if n == 0 then None
    else
      var m := FirstMinIndex(d, n - 1);
      if m.None? || d[n - 1] < d[m.value] then Some(n - 1) else m
  }

  /** Sum of the gravity velocity deltas of the first n stars that are in gravity range. */
  function GravitySum(dist: seq<real>, g: seq<real>, n: nat): real
    requires n <= |dist| && n <= |g|
  {
    if n == 0 then 0.0
    else GravitySum(dist, g, n - 1) + (if dist[n - 1] < GRAVITY_RANGE then g[n - 1] else 0.0)
  }

  /** Solar flux received at distance d from a star of the given mass. */
  function Flux(mass: int, d: real): real
  {
    assert d * d + 1.0 > 0.0;
    (mass as real / 10.0) / (d * d + 1.0) * 2000.0
  }

  /** Energy collected in one tick by `panels` solar panels at distance d from a star. */
  function SolarGain(mass: int, d: real, panels: int): real
  {
    Flux(mass, d) * panels as real * 0.1
  }

  /** Rotation, then thrust along the new heading. */
  function Steered(a: ArkState, k: Keys, p: Physics): ArkState
  {
    Thrust(a.(angle := Rotate(a.angle, k)), k, p)
  }

  /** How many stars the gravity pass looks at before it stops (at a collision) or runs out. */
  function ScanLength(stars: seq<StarData>, dist: seq<real>): (n: nat)
    requires |dist| == |stars|
    ensures n <= |stars|
  {
    var c := FirstCollision(stars, dist);
    if c < |stars| then c + 1 else c
  }

  /** The nearest star the gravity pass reports. */
  function Nearest(stars: seq<StarData>, dist: seq<real>): (r: Option<nat>)
    requires |dist| == |stars|
    ensures r.Some? ==> r.value < |stars|
  {
    FirstMinIndex(dist, ScanLength(stars, dist))
  }

  /** Its distance; infinite when no star was scanned. */
  function NearestDist(stars: seq<StarData>, dist: seq<real>): Extended
    requires |dist| == |stars|
  {
    var n := Nearest(stars, dist);
    if n.Some? then Fin(dist[n.value]) else Inf
  }

  /** The gravity pass: velocity changes of the stars before the first collision, and the crash. */
  function Pulled(a: ArkState, stars: seq<StarData>, p: Physics): ArkState
    requires p.Fits(|stars|)
  {
    var c := FirstCollision(stars, p.dist);
    var b := a.(vx := a.vx + GravitySum(p.dist, p.gravX, c), vy := a.vy + GravitySum(p.dist, p.gravY, c));
    if c < |stars| then b.(alive := false, msg := Crashed) else b
  }

  /** Position step by the current velocity. */
  function Moved(a: ArkState): ArkState
  {
    a.(x := a.x + a.vx * DT, y := a.y + a.vy * DT)
  }

  /** Energy after solar gain from the nearest star (given by its mass, if any), before life support. */
  function Charged(a: ArkState, nearestMass: Option<int>, d: real): real
  {
    if nearestMass.Some? then a.energy + SolarGain(nearestMass.value, d, a.solarPanels) else a.energy
  }

  /** Life-support drain, the cap at maxEnergy, and the depletion check. */
  function Drained(a: ArkState, charged: real): ArkState
  {
    var drained := charged - LIFE_SUPPORT;
    var capped := if drained > a.maxEnergy then a.maxEnergy else drained;
    if capped <= 0.0 then a.(energy := capped, alive := false, msg := EnergyDepleted)
    else a.(energy := capped)
  }

  /** Motion and the energy cycle, given the nearest star's mass and distance. */
  function Flown(a: ArkState, nearestMass: Option<int>, d: real): ArkState
  {
    var moved := Moved(a);
    Drained(moved, Charged(moved, nearestMass, d))
  }

  /** One update of the craft: rotation, thrust, gravity scan, motion and energy. */
  function ArkTick(a: ArkState, stars: seq<StarData>, k: Keys, p: Physics): (t: Tick)
    requires p.Fits(|stars|)
    ensures t.nearest.Some? ==> t.nearest.value < |stars| && t.dist.Fin?
  {
    if !a.alive then Tick(a, None, Fin(0.0))
    else
      var pulled := Pulled(Steered(a, k, p), stars, p);
      var n := Nearest(stars, p.dist);
      var d := NearestDist(stars, p.dist);
      if FirstCollision(stars, p.dist) < |stars| then Tick(pulled, n, d)
      else Tick(Flown(pulled, if n.Some? then Some(stars[n.value].mass) else None,
                      if d.Fin? then d.value else 0.0), n, d)
  }

  // ------------------------------------------------------- the world's tick

  /** Build key 1: trade 50 matter for 100 extra energy capacity. */
  function BuildBattery(a: ArkState): ArkState
  {
    if a.matter >= BATTERY_MATTER then
      a.(matter := a.matter - BATTERY_MATTER, maxEnergy := a.maxEnergy + BATTERY_CAPACITY,
         msg := BatteryUpgraded)
    else a
  }

  /** Build key 2: trade 20 matter and 50 energy for 50 fuel. */
  function SynthesizeFuel(a: ArkState): ArkState
  {
    if a.matter >= FUEL_MATTER && a.energy >= FUEL_ENERGY then
      a.(matter := a.matter - FUEL_MATTER, energy := a.energy - FUEL_ENERGY,
         fuel := a.fuel + FUEL_YIELD, msg := FuelSynthesized)
    else a
  }

  function Commands(a: ArkState, k: Keys): ArkState
  {
    var b := if k.one then BuildBattery(a) else a;
    if k.two then SynthesizeFuel(b) else b
  }

  predicate InZone(s: StarData, d: real)
  {
    s.hzMin < d < s.hzMax
  }

  /**
   * In the zone and slow: progress on star i rises by COLONIZE_SPEED; reaching
   * 100 colonizes it, counts it and resupplies the craft.
   */
  function Advanced(w: World, i: nat): World
    requires i < |w.stars|
  {
    var s := w.stars[i];
    var p := s.progress + COLONIZE_SPEED;
    if p >= FULL_PROGRESS then
      w.(stars := w.stars[i := s.(progress := p, colonized := true)],
         colonizedCount := w.colonizedCount + 1,
         ark := w.ark.(matter := w.ark.matter + REWARD_MATTER, fuel := w.ark.fuel + REWARD_FUEL,
                       energy := w.ark.maxEnergy, msg := ColonizationComplete))
    else
      w.(stars := w.stars[i := s.(progress := p)], ark := w.ark.(msg := Colonizing(Trunc(p))))
  }

  /** Outside the zone: positive progress on star i decays by DECAY. */
  function Decayed(w: World, i: nat): World
    requires i < |w.stars|
  {
    var s := w.stars[i];
    if s.progress > 0.0 then w.(stars := w.stars[i := s.(progress := s.progress - DECAY)]) else w
  }

  /** The colonization state machine, run on the nearest star. */
  function Colonize(w: World, nearest: Option<nat>, dist: Extended, speed: real): World
    requires nearest.Some? ==> nearest.value < |w.stars| && dist.Fin?
  {
    if nearest.None? || w.stars[nearest.value].colonized then w
    else
      var i := nearest.value;
      var inZone := InZone(w.stars[i], dist.value);
      if inZone && speed < SLOW_SPEED then Advanced(w, i)
      else if inZone then w.(ark := w.ark.(msg := TooFast))
      else Decayed(w, i)
  }

  predicate GenerationDue(w: World, originDist: real)
  {
    originDist > w.maxDistGen + GEN_DISTANCE
  }

  /** Appends one star when the craft has gone GEN_DISTANCE beyond its previous record. */
  function Generate(w: World, e: Env): World
  {
    if GenerationDue(w, e.originDist) then
      w.(maxDistGen := e.originDist,
         stars := w.stars + [NewStar(e.spawnX, e.spawnY, |w.stars|, e.spawnRadius)],
         ark := w.ark.(msg := NewStarDetected))
    else w
  }

  /** One tick of the world: the craft, then (if it survived) builds, colonization, generation. */
  function WorldTick(w: World, k: Keys, p: Physics, e: Env): World
    requires p.Fits(|w.stars|)
  {
    var t := ArkTick(w.ark, w.stars, k, p);
    if !t.ark.alive then w.(ark := t.ark)
    else
      var built := w.(ark := Commands(t.ark, k));
      Generate(Colonize(built, t.nearest, t.dist, e.speed), e)
  }
}
