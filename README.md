# Entropy's Ark — a verified model of the game state

"Entropy's Ark" is a small arcade game: a craft (the Ark) flies through an
endless field of stars under Newtonian gravity, lives on solar energy from the
nearest star, turns matter into battery capacity or fuel, and colonizes stars
by hovering slowly inside their habitable zone. New stars appear ahead of the
craft each time it travels another 3000 units away from the origin.

This project models the game-state core of `cons.py`: the `Star`, `Ark` and
`GameWorld` classes, their constructors and their `update` methods, and
`spawn_new_star`. It has three modules:

- `Rules` (`rules.dfy`) holds the rules as pure functions on values. These are
  the data types `StarData`, `ArkState` and `World`, and the functions
  `ArkTick` (one update of the craft) and `WorldTick` (one update of the
  world), built from small step functions. Each step function matches one
  block of the source: rotation, thrust, the gravity/collision scan, motion,
  the energy cycle, build commands, the colonization state machine and
  generation.
- `Game` (`game.dfy`) holds the objects as they change in place: `Star`,
  `Ark` and `GameWorld` classes with the source's fields and methods. Each
  mutating method is proved to leave the object in exactly the state the
  matching `Rules` function gives.
- `Properties` (`properties.dfy`) proves what the rules promise. It covers:
  - the nearest star is the first strict minimum of the distances;
  - a crash happens exactly at the first star within radius + 10;
  - the energy, fuel and death outcomes of a tick;
  - the build commands' guards and exchanges;
  - which star colonization may touch and how its progress moves;
  - generation appends exactly one star whose level is the old star count;
  - a world invariant that holds initially and that every tick preserves.

Everything the game gets from floating-point geometry, trigonometry or the
random generator is an input of the rules:

- in `Physics`: the heading's cosine and sine, each star's distance from the
  craft, and each star's gravity velocity change;
- in `Env`: the craft's speed and its distance from the origin after it moved,
  the spawn position, and the random radius of a new star;
- the constructors' parameters: the random radius of a star and the orbital
  speed.

The rules compute with exact reals.

## Model

| member | source | states |
|---|---|---|
| Game.Star.constructor | cons.py:43-60 | fields as given; mass = 120·radius; habitable zone from 4·radius to 7·radius; the level-0 star starts colonized with progress 100, every other star uncolonized with progress 0 |
| Game.Ark.constructor | cons.py:81-109 | craft placed 450 above the start star with the orbital speed along x, heading 0, energy/capacity/fuel 500, matter 200, one solar panel, alive, "System Online." |
| Game.GameWorld.constructor | cons.py:209-217 | one level-0 star at the origin, the craft orbiting it, 1 colony of a target of 5, generation record 0; the world invariant holds |
| Game.Ark.Update | cons.py:111-181 | a dead craft is left untouched and reports no star and distance 0; otherwise the new state, the nearest star and its distance are those of `ArkTick`; a dead craft never comes back |
| Game.Ark.Steer | cons.py:115-131 | left/right rotate by 0.08; thrust only with the key held and positive fuel and energy, costing 0.3 fuel and 0.1 energy and adding 0.15 along the heading |
| Game.Ark.Pull | cons.py:133-159 | velocity gains the gravity of the in-range stars before the first collision; a collision kills the craft with the crash message; the nearest star and distance are those of the scan |
| Game.Ark.Scan | cons.py:134-159 | the scan stops at the first star closer than radius + 10; the reported star is the first strict minimum among the stars scanned (up to and including the crash star); gravity sums cover stars closer than 5000 before the stop |
| Game.Ark.Recharge | cons.py:161-179 | moves by the velocity; adds the nearest star's solar gain; subtracts 0.2; caps at capacity; at energy <= 0 the craft dies with the depletion message |
| Game.Ark.Resupply | cons.py:262-265 | colony reward: matter +200, fuel +200, energy refilled to capacity, completion message |
| Game.GameWorld.Update | cons.py:219-278 | new view is `WorldTick` of the old one; stars only appended (at most one, fresh); the world invariant is preserved |
| Game.GameWorld.Step | cons.py:219-278 | craft first; if it died nothing else happens; then build commands, colonization of the nearest star, generation, in that order |
| Game.GameWorld.ApplyBuildCommands | cons.py:231-245 | key 1 and key 2 apply `BuildBattery` then `SynthesizeFuel` to the craft |
| Game.GameWorld.ColonizeNearest | cons.py:247-271 | the colonization state machine on the nearest star, when it is not yet colonized; the star list, the craft object and the generation record are unchanged |
| Game.GameWorld.AdvanceColonization | cons.py:253-265 | progress +0.3 with the "Colonizing… n%" message; at >= 100 colonized, counted, craft resupplied |
| Game.GameWorld.DecayProgress | cons.py:268-271 | positive progress decays by 0.1 |
| Game.GameWorld.ExpandUniverse | cons.py:273-278 | when the origin distance exceeds the record + 3000, the record becomes that distance and one star is spawned |
| Game.GameWorld.SpawnNewStar | cons.py:280-290 | appends one fresh star whose level is the old star count; earlier stars untouched; "New Star System Detected." |
| Rules.FirstCollision | cons.py:137-152 | index of the first colliding star, at most the star count |
| Rules.FirstMinIndex | cons.py:134-146 | the running strict-minimum scan returns nothing exactly for an empty prefix, else an index inside it |
| Rules.ArkTick | cons.py:111-181 | a reported nearest star is a valid index with a finite distance |
| Properties.FirstMinIndexSound | cons.py:134-146 | the index the scan ends on holds the smallest distance and every earlier distance is strictly larger |
| Properties.FirstMinIndexIsFirstMinimum | cons.py:134-146 | the scan's result is k if and only if k is the first index of the minimum |
| Properties.FirstCollisionIsFirst | cons.py:148-152 | no star before the first collision collides, and the one at that index does |
| Properties.FirstCollisionAt | cons.py:148-152 | a collision at i with none before it makes i the first collision |
| Properties.ScanStopsAt | cons.py:137-152 | a pass stopping at i has scanned i + 1 stars after a crash, all of them otherwise |
| Properties.ArkTickAliveOnlyFalls | cons.py:111-112 | a dead craft is frozen and a tick never revives one |
| Properties.SteeringAndThrust | cons.py:115-131 | left turns −0.08, right +0.08; with the up key, fuel > 0 and energy > 0: fuel −0.3, energy −0.1, velocity +0.15·(cos, sin) of the new heading; otherwise only the heading changes |
| Properties.ArkTickFuel | cons.py:115-131 | fuel drops by exactly 0.3 when the thrust fires and is otherwise unchanged; matter and capacity unchanged; heading turns by −0.08 (left) and +0.08 (right) |
| Properties.ArkTickCrash | cons.py:148-152 | after a crash: dead, crash message, position unchanged, energy pays only for thrust, nearest star is the first minimum up to the crash star |
| Properties.ArkTickCrashIff | cons.py:148-152 | a tick ends in a crash exactly when some star is within radius + 10 |
| Properties.ArkTickFlight | cons.py:161-181 | without a crash: nearest star is the first minimum of all distances; energy = min(capacity, thrust-adjusted energy + solar gain − 0.2); alive iff energy > 0; position advances by the new velocity |
| Properties.BatteryUpgrade | cons.py:233-237 | fires iff matter >= 50: matter −50, capacity +100, message set, every other field unchanged; otherwise no change; matter stays non-negative |
| Properties.FuelSynthesis | cons.py:240-245 | fires iff matter >= 20 and energy >= 50: matter −20, energy −50, fuel +50, message set, every other field unchanged; otherwise no change; matter stays non-negative |
| Properties.ColonizeTouchesOnlyNearest | cons.py:248-271 | only the nearest star, when it is not yet colonized, can change; colonized stars, the star count and the generation record stay as they were |
| Properties.ColonizeInZoneSlow | cons.py:253-265 | in the zone and slower than 3: progress +0.3; colonized, counted and resupplied exactly when it reaches 100 |
| Properties.ColonizeInZoneFast | cons.py:266-267 | in the zone but too fast: only the "Too Fast" message changes |
| Properties.ColonizeOutOfZone | cons.py:268-271 | outside the zone: positive progress −0.1, zero progress stays, nothing else changes |
| Properties.ColonizationTakes334Ticks | cons.py:253-265 | from progress 0, holding still in the zone colonizes on exactly the 334th tick, at progress 100.2 |
| Properties.ColonizingText | cons.py:255 | the colonization message shows the truncated percent in decimal, e.g. "Colonizing... 99%" and "Colonizing... 0%" |
| Properties.GenerateAppendsOne | cons.py:273-290 | generation fires iff origin distance > record + 3000; then the record becomes that distance and exactly one star (level = old count) is appended, and another is not due at the same distance; otherwise nothing changes |
| Properties.CountColonizedUpdate | cons.py:258-260 | replacing one star changes the colonized count by the change of that star's flag |
| Properties.CountColonizedAppend | cons.py:289 | appending a star adds its flag to the colonized count |
| Properties.InitialWorldInv | cons.py:209-217 | the initial world satisfies the world invariant |
| Properties.ArkTickKeepsArkInv | cons.py:111-181 | the craft's tick keeps energy within capacity, matter >= 0, fuel > −0.3 and a living craft's energy >= 0 |
| Properties.CommandsKeepArkInv | cons.py:231-245 | the build commands keep the craft invariant |
| Properties.OnGridBounds | cons.py:253-271 | a tenth-step progress below 100 is at most 99.9, a positive one at least 0.1 |
| Properties.ColonizeKeepsInv | cons.py:248-271 | colonization keeps progress in tenth steps within [0, 100) uncolonized and [100, 100.2] colonized, and the counter equal to the number of colonized stars |
| Properties.GenerateKeepsInv | cons.py:273-290 | generation keeps the world invariant (the new star is well formed and uncolonized at its index) |
| Properties.WorldTickPreservesInv | cons.py:219-278 | every world tick preserves the world invariant |
| Properties.WorldTickGrowOnly | cons.py:219-290 | a tick keeps every star's place and physical data, never modifies a colonized star, adds at most one star, never lowers the generation record or the colony count, and never revives the craft |

## Left out

- Drawing, the camera, the UI panel, input polling, the main loop, the restart key and the victory banner are not modelled. None of them changes the modelled state: the camera only moves itself, and the restart key replaces the whole world with a new one.
- Square roots, trigonometry and the gravity formula (G·mass/d², divided by the craft's mass 10.0, along dx/d and dy/d) are not computed. The model takes each star's distance and velocity change, the heading's cosine and sine, the speed and the origin distance as per-tick inputs (`Physics`, `Env`).
- The random star radius in 60..90 and the random spawn angle and distance are inputs. `Env.Valid` and the constructors require the radius to lie in 60..90; the spawn position is taken as given.
- The orbital speed sqrt(G·mass/450) is the input `vOrbit`.
- Floating-point rounding is not modelled. All arithmetic is exact over the reals, so progress stays exactly on multiples of 0.1 and never dips below zero through rounding.
- Game.Ark.Pull: the model adds the scanned stars' velocity changes to the craft in one step after the pass, while cons.py adds them star by star during it. The result is the same, because nothing in the pass reads the velocity.
- The craft's `mass` field is not modelled (it only enters the gravity inputs). The locals `thrusting` (cons.py:223) and `is_thrusting` (cons.py:119) are never read and are not modelled.
- A colonized star's progress is not exactly 100. The code adds 0.3 from a multiple of 0.1 and tests `>= 100`, so a star colonized from zero holds 100.2, and in general 100 to 100.2. The model follows the code (`ColonizationTakes334Ticks`, `StarInv`).
- The status line is the datatype `Status`. `StatusText` gives the text shown for each status; `ColonizingText` checks it on examples.
