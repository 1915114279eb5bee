# Marbles: a verified model of the marble jar engine

Marbles shows one glass jar per owner, filled with as many marbles as that owner
holds. This project models the browser side of it, `script.js`:

- `Marble`: a marble whose position, velocity and rest-detector fields change in place
  on every animation frame. The frame applies gravity, movement and friction. It then
  runs the jar boundary (flat floor, curved bowl, side walls), the scan that resolves
  overlapping pairs, and the rest detector that settles a marble after 31 consecutive
  slow frames.
- Its colour arithmetic, `lightenColor` and `darkenColor`.
- `OwnerJar`: sizing the canvas, filling the jar with settled marbles, dropping in a new
  marble, and one animation frame over all marbles in array order.
- Two pieces of `MarbleSystem`: the diff between the stored and the refreshed marble
  counts (`detectChanges`), and taking back the current user's last marble
  (`undoLastMarble`).

JavaScript numbers are Dafny `real`s. The arithmetic is exact; IEEE rounding is not
modelled.

The files:

- `physics.dfy` (module `MarblePhysics`): one marble's state as the value `Body`, and
  every step rule as a pure function on it.
- `physics_laws.dfy` (module `PhysicsLaws`): lemmas that relate several steps.
- `marble.dfy` (module `Marbles`): the `Marble` class, whose methods update its fields
  and are proved against the step rules. It also holds `Scan` and `Step`, the pair scan
  and the whole frame on a sequence of states.
- `colors.dfy` (module `MarbleColors`): hex parsing and printing, and the two colour
  functions.
- `jar.dfy` (module `Jars`): the `OwnerJar` class, whose marbles are a `seq<Marble>`
  field.
- `system.dfy` (module `MarbleSystems`): the count diff, and `MarbleSystem` with its
  map of jars.

Inputs the source takes from the browser become parameters:

- `Math.sqrt` is a function parameter `sqrt`. Only the rest detector needs it to be
  exact: `CheckIfSettled`, and through it `Update`, `Animate` and the `OwnerJar`
  constructor, require `IsSqrt` (non-negative, and its square is its argument). The
  scan's conservation, rest-field and exit lemmas hold for any `sqrt`, so for any value
  of the distance.
- `Math.random()` draws are the parameters `rands`, `r1`, `r2` and `r3`.
- The measured size of the jar element is `rectW` by `rectH`.
- `Math.round(2.55 * amount * 100)` is the integer `amt`: 102 (`HighlightAmount`) and
  51 (`OutlineAmount`) at the two calls in `draw`.

Three behaviours of the code that are easy to misread:

- The pair scan returns early exactly when the two marbles are approaching: the normal
  points from the scanning marble to the other one and the relative velocity is the
  other's minus the scanning marble's, so a negative normal speed means the gap is
  closing (`PairExitsIffApproaching`). A touching pair that is separating gets an
  impulse instead.
- A settled marble is still the `other` of a moving marble's scan: it is pushed and
  given a velocity while it stays settled (`HeadOnPush`, `SettledMarbleIsDisturbed`).
- The curved bowl branch can take the square root of a negative number, or divide by a
  zero bowl height. The resulting NaN makes the comparison false, so the branch changes
  nothing. `Bowl` does the same.

## Model

| member | source | states |
|---|---|---|
| MarblePhysics.Integrate | script.js:20-25 | vy gains gravity first; the position moves by that post-gravity, pre-friction velocity; then both velocity components are scaled by friction; the rest fields are kept |
| MarblePhysics.FloorClamp | script.js:35-45 | inside the flat-floor span the marble rests at `bottom - radius` and vy becomes `-bounce * vy`, or 0 exactly when that is slower than 0.5; outside the span nothing changes |
| MarblePhysics.SideWalls | script.js:70-79 | y, vy and the rest fields are untouched; a marble clear of both walls is unchanged; after the branch x lies within `[left + radius, right - radius]` when the jar is that wide, and sits on the right limit when the marble reached the right wall; a marble touching the left wall of a jar wider than a marble rests on the left limit with vx reflected once; a marble touching only the right wall has vx reflected once; in every case vx is kept, reflected once or reflected twice |
| MarblePhysics.Direction | script.js:57-58 | the cosine and sine of `Math.atan2(dy, dx)`: the vector scaled to unit length, and (1, 0) where its length is 0 |
| MarblePhysics.Reflect | script.js:64-68 | a velocity already tangent to the normal (zero dot product) comes back unchanged; `ReflectSplit` gives the general case |
| MarblePhysics.HalfWidth | script.js:54 | the bowl's half-width at a relative height in [-1, 1] is never negative |
| MarblePhysics.Bowl | script.js:47-69 | the bowl branch never raises a marble (`y` never increases) and never touches the rest fields |
| MarblePhysics.JarCollision | script.js:32-80 | the boundary check never touches the rest fields; a marble on the flat floor never ends below the floor line, and ends exactly on it when the floor line lies above the start of the bowl; a marble above the bowl after the floor test ends between the wall limits when the jar is at least a marble wide |
| MarblePhysics.Hypot | script.js:86-88 | `Math.sqrt(dx*dx + dy*dy)` is never negative |
| MarblePhysics.Distance | script.js:86-88 | the distance between two centres is never negative |
| MarblePhysics.PairStep | script.js:84-115 | a pair is touched only when `0 < distance < rs + ro`; the sums of x, y, vx and vy over the pair are unchanged, because both impulses use the scanning marble's bounce; an exit leaves all velocities unchanged; settled flags and counters are kept |
| MarblePhysics.Slow | script.js:120-121 | a marble is slow when its speed is below 0.1, written on squares (`SpeedThreshold` shows the two agree) |
| MarblePhysics.RestStep | script.js:119-131 | a slow step increments the counter and a fast one resets it to 0; the marble is settled afterwards exactly when it was already settled or this slow step found the counter at 30 or more, and then its velocity is zeroed; otherwise the velocity is kept; the position is never changed |
| PhysicsLaws.SpeedThreshold | script.js:120-121 | comparing `Math.sqrt(vx² + vy²)` with 0.1 decides the same as comparing `vx² + vy²` with 0.01 |
| PhysicsLaws.ReflectSplit | script.js:64-68 | reflection about a unit normal scales the normal velocity component by `1 - 2·bounce` and keeps the tangential one |
| PhysicsLaws.PairVelocities | script.js:108-114 | when a touching pair does not exit, the scanning marble gains and the other loses the impulse `speed` along the unit normal, scaled by `bounce` |
| PhysicsLaws.PairImpulse | script.js:101-114 | for a touching pair that does not exit, the relative velocity is reflected about the unit contact normal: its normal component is scaled by `1 - 2·bounce` and its tangential component is kept; with the pair sums this fixes both new velocities |
| PhysicsLaws.PairExitsIffApproaching | script.js:101-108 | for a touching pair, the scan exits exactly when the two marbles approach each other |
| PhysicsLaws.PairPush | script.js:91-99 | a resolved pair moves both centres apart along the line through them, by half the overlap each |
| PhysicsLaws.PushedApart | script.js:92-99 | that push leaves the two centres exactly `rs + ro` apart, so the overlap is removed completely |
| PhysicsLaws.DistanceSymmetric | script.js:86-88 | the distance between two marbles is the same whichever of them scans |
| PhysicsLaws.HeadOnPush | script.js:91-114 | for a touching pair on the x axis that is not approaching, the other marble moves on by half the overlap and its vx drops by `(o.vx - s.vx) * bounce`; its y, vy and rest fields are kept |
| PhysicsLaws.SettledMarbleIsDisturbed | script.js:96-114 | a settled marble, as the `other` of a moving marble's scan, is pushed and given a velocity while it stays settled |
| PhysicsLaws.SlowRun | script.js:119-131 | over a run of slow steps the counter grows by one per step, and the marble ends settled exactly when it was settled or the counter passed 30 |
| PhysicsLaws.SettlesOnStep31 | script.js:121-127 | from a fresh counter, a moving marble is settled after a run of slow steps exactly when the run is at least 31 long |
| PhysicsLaws.FastStepResets | script.js:128-130 | after one fast step the counter equals the number of slow steps since, and an unsettled marble settles only once that run exceeds 30 |
| Marbles.Step | script.js:17-30 | `update` on the states of the jar: a settled marble leaves every state exactly as it was |
| Marbles.Scan | script.js:82-117 | the scan over the jar neither adds nor removes a marble |
| Marbles.PairKeepsSums | script.js:91-114 | one resolved pair keeps the sum over the jar of each of x, y, vx and vy |
| Marbles.ScanConserves | script.js:82-117 | the whole scan keeps each of those sums over the jar, whether it runs to the end or exits early |
| Marbles.ScanKeepsRest | script.js:82-117 | the scan never changes any marble's settled flag or counter |
| Marbles.ScanStopsAtExit | script.js:83-108 | the scan changes only the scanning marble and the marbles up to the pair where it exits; the marbles after that pair are untouched |
| Marbles.StepKeepsSettled | script.js:17-30 | a frame never un-settles a marble and never touches the rest fields of any other marble; the marble taking the frame settles only with zero velocity |
| Marbles.Marble.constructor | script.js:2-15 | a new marble is at rest at the given point, not settled, with counter 0 and the given colour |
| Marbles.Marble.Update | script.js:17-30 | the states of the jar's marbles after `update` are `Step` of the states before it |
| Marbles.Marble.CheckJarCollision | script.js:32-80 | the new state is `JarCollision` of the old one |
| Marbles.Marble.CheckFloor | script.js:35-45 | the new state is `FloorClamp` of the old one |
| Marbles.Marble.CheckBowl | script.js:47-69 | the new state is `Bowl` of the old one |
| Marbles.Marble.CheckWalls | script.js:70-79 | the new state is `SideWalls` of the old one |
| Marbles.Marble.CheckMarbleCollisions | script.js:82-117 | the loop over the marbles leaves the jar in the state `Scan` describes: self skipped, each pair resolved in turn, stop at the first exit |
| Marbles.Marble.Collide | script.js:86-114 | both marbles of a pair take the states `PairStep` computes, and `exit` reports the early return |
| Marbles.Marble.CheckIfSettled | script.js:119-131 | the new state is `RestStep` of the old one |
| MarbleColors.ParseHex | script.js:164 | `parseInt(s, 16)` of `k` hex digits is below 16^k |
| MarbleColors.ToHex | script.js:169-171 | `n.toString(16)` is a non-empty string of hex digits |
| MarbleColors.Red | script.js:166 | `num >> 16`: below 0x100 for a colour below 0x1000000 |
| MarbleColors.Green | script.js:167 | `num >> 8 & 0xFF`: always below 0x100 |
| MarbleColors.Blue | script.js:168 | `num & 0xFF`: always below 0x100 |
| MarbleColors.ChannelsRecompose | script.js:166-168 | the three channels of a colour below 0x1000000 put back together give the colour |
| MarbleColors.ParseToHex | script.js:169-171 | `parseInt(n.toString(16), 16) == n` for every natural number |
| MarbleColors.LightClamp | script.js:169-171 | the lighten clamp lies in [0, 255], keeps values already in range, and sends values below 0 to 0 and above 255 to 255 |
| MarbleColors.DarkClamp | script.js:180-182 | the darken clamp lies in [0, 255], keeps values already in range, and sends values below 0 to 0 and above 255 to 255 |
| MarbleColors.ClampsAgree | script.js:169-182 | the two differently written clamps agree on every integer |
| MarbleColors.Channels | script.js:166-168 | the shifts and masks read `r * 0x10000 + g * 0x100 + b` back as r, g and b |
| MarbleColors.SliceDropsLeadingOne | script.js:169-171 | `(0x1000000 + v).toString(16)` is seven digits long, and dropping its first digit leaves six digits worth v |
| MarbleColors.Encode | script.js:169-171 | the result is `#` plus six hex digits whose channels read back as r, g and b |
| MarbleColors.Lighten | script.js:166-171 | the result is a well-formed colour whose every channel is the input channel plus `amt`, clamped |
| MarbleColors.LightenColor | script.js:163-172 | `lightenColor` returns `#` followed by exactly six hex digits |
| MarbleColors.Darken | script.js:177-182 | the result is a well-formed colour whose every channel is the input channel minus `amt`, clamped |
| MarbleColors.DarkenColor | script.js:174-183 | `darkenColor` returns `#` followed by exactly six hex digits |
| MarbleColors.ChannelsInRange | script.js:164-168 | a parsed six-digit colour is below 0x1000000, so its red channel is at most 255 |
| MarbleColors.LightenNeverDarker | script.js:163-172 | with a non-negative amount, no channel of the lightened colour is below the original's |
| MarbleColors.DarkenNeverLighter | script.js:174-183 | with a non-negative amount, no channel of the darkened colour is above the original's |
| Jars.PaletteColor | script.js:250 | colour `i` is one of the eight palette colours |
| Jars.PaletteShadesAreHex | script.js:138-146 | the highlight (`lightenColor(color, 0.4)`, amount 102) and the outline (`darkenColor(color, 0.2)`, amount 51) of every palette colour are well-formed `#rrggbb` colours |
| Jars.PaletteIsHex | script.js:247-250 | every palette colour is a well-formed `#rrggbb` colour the colour functions accept |
| Jars.CanvasSize | script.js:235-236 | a canvas dimension is the fallback when the measured size is 0, and otherwise the integer part of the measured size |
| Jars.JarBounds | script.js:238-243 | the walls are 20 closer together than the canvas is wide, and the bowl starts above the floor once the canvas is more than 15 high |
| Jars.DropX | script.js:251 | `left + margin + Math.random() * (right - left - 2·margin)`; `DropXInside` bounds it |
| Jars.StackY | script.js:252 | a stacked marble starts at least 15 above the floor |
| Jars.DropXInside | script.js:251 | a drawn horizontal position keeps its margin from both walls whenever the jar is at least two margins wide |
| Jars.StackRises | script.js:252 | the stack starts 15 above the floor and each later marble sits 12 higher per index |
| Jars.Stacked | script.js:249-257 | the `i`-th stacked state is settled, at rest, at the `i`-th draw and the `i`-th stack height |
| Jars.Painted | script.js:247-250 | the `i`-th painted colour is palette colour `from + i` |
| Jars.Frame | script.js:283-286 | a frame over the jar neither adds nor removes a marble |
| Jars.FrameKeepsSettled | script.js:280-289 | an animation frame never un-settles a marble |
| Jars.AllSettledInert | script.js:280-289 | a frame over a jar whose marbles are all settled leaves every state as it was |
| Jars.SettledMarble | script.js:254-255 | the new marble is settled, at rest at the given point, with the given colour |
| Jars.ThrownMarble | script.js:267-270 | the new marble is not settled, at the given point with the given velocity and colour |
| Jars.OwnerJar.constructor | script.js:187-198 | the canvas and bounds follow the measured size; the jar holds `count` settled marbles at the stacked states in palette colours; the first frame leaves them all where they were put |
| Jars.OwnerJar.InitCanvas | script.js:231-244 | the canvas takes the measured size, or 250 by 300 where it measures 0, and the bounds follow from it |
| Jars.OwnerJar.CreateMarbles | script.js:246-260 | `count` new marbles are appended and the earlier ones are kept; the new states are `Stacked` and the new colours are `Painted(0, count)` |
| Jars.OwnerJar.StackMarbles | script.js:249-257 | the `i`-th marble the loop appends has the `i`-th stacked state, and the colours gain palette colours 0 to `count - 1` |
| Jars.OwnerJar.StackOne | script.js:250-256 | one pass of the loop appends one fresh marble, settled and at rest at the drawn position and the `i`-th stack height, in palette colour `i`; the earlier marbles are kept |
| Jars.OwnerJar.AddMarble | script.js:262-274 | exactly one new marble is appended and the earlier ones are kept: not settled, 20 above the canvas at the drawn position, with the drawn velocity and the next palette colour |
| Jars.OwnerJar.Animate | script.js:280-289 | the states after a frame are `Frame` of the states before it: `update` of every marble in array order |
| MarbleSystems.DetectChanges | script.js:390-410 | every owner in `current`, and no other, gets a non-negative count; the user is reported exactly when the flag is raised |
| MarbleSystems.PreviousCount | script.js:398 | a stored owner counts its stored value and an owner with no stored count counts 0 |
| MarbleSystems.Gain | script.js:401 | `Math.max(0, added)` |
| MarbleSystems.GainIsIncrease | script.js:397-401 | an owner's gain is positive exactly when its count went up, and then it equals the increase |
| MarbleSystems.UserFlagIffGain | script.js:403-406 | the current user is flagged exactly when it owns a jar in `current` whose gain is positive |
| MarbleSystems.NoChangeNoGain | script.js:397-406 | a refresh that repeats the stored counts reports no gain for anybody |
| MarbleSystems.FirstRefreshGainsAll | script.js:397-401 | with nothing stored, every owner gains its whole positive count |
| MarbleSystems.Truthy | script.js:437 | JavaScript truthiness of the current user: absent and the empty name are false |
| MarbleSystems.MarbleSystem.UndoTarget | script.js:437-439 | the jar that undo pops from, if any, is one of the jars and is not empty |
| MarbleSystems.MarbleSystem.UndoLastMarble | script.js:436-444 | the current user's non-empty jar loses exactly its last marble; every other jar, and an empty jar, is left as it was |

## Left out

- `draw`, `createJarElement`, `updateCount`, `showNotification`, `bindEvents` and the
  DOM parts of `initCanvas`: page rendering and DOM construction.
- `requestAnimationFrame`, `cancelAnimationFrame`, `startAnimation`, `stopAnimation` and
  the timers: `Animate` is one frame, and the scheduling between frames is not modelled.
- `MarbleAPI`, `refresh`, `requestMarble`, `loadFromStorage` and `saveToStorage`:
  network and `localStorage` I/O.
- `updateJars` and `animateNewMarbles`: asynchronous orchestration over timers. Their
  building blocks, `OwnerJar`, `AddMarble` and `DetectChanges`, are modelled.
- `server.js`: the server and its git workflow, outside the browser engine.
- `Marble.id`: set from `Date.now()` and `Math.random()`, and never read by the engine.
- IEEE floating point: rounding, overflow, NaN and infinities are not modelled. The one
  NaN case the engine meets, in the bowl, is modelled by its effect.
- `Math.round(2.55 * amount * 100)`: the rounded amount is the integer parameter `amt`.
- `Math.sqrt`, `Math.atan2`, `Math.cos` and `Math.sin`: `sqrt` is a parameter.
  `cos(atan2(dy, dx))` and `sin(atan2(dy, dx))` are written as the unit vector
  `(dx, dy) / sqrt(dx² + dy²)`, and `(1, 0)` at the origin.
- MarblePhysics.Bowl: states only that the bowl never raises a marble and never touches
  its rest fields. No geometric contract about where on the bowl wall the marble ends
  is proved. `ReflectSplit` states the velocity reflection separately.
- MarblePhysics.SideWalls: bounds x only when the jar is at least a marble wide. For a
  narrower jar the source's two clamps contradict each other, and the later one wins.
- Marbles.Marble.Update: requires that no marble occurs twice in the array, which
  `OwnerJar` keeps as its invariant `Valid`. The source itself copes with a repeated
  marble: it skips every copy of the scanning marble by identity (`other === this`),
  and resolves a repeated `other` twice against the same live object. The model
  describes the jar by one state per array position (`World`, `Scan`), which for a
  repeated marble would hold two states for one object that drift apart; that case is
  not described.
- MarblePhysics.Direction: that the vector it returns away from the origin has unit
  length, which `ReflectSplit` asks of its normal, is not proved.
- Jars.OwnerJar.CreateMarbles: requires the invariant `Valid` on entry, which every
  `OwnerJar` holds from its construction.
- Jars.CanvasSize: requires a non-negative measured size, as a measured box is. The
  32-bit wrap of the canvas size attributes is not modelled.
- Marbles.Marble.constructor: the source's default colour `'#4169E1'` is not modelled;
  every call site passes a colour (script.js:254, script.js:267), so no behaviour is lost.
- `parseInt` on a string that is not `#` followed by six hex digits: the colour
  functions are stated for well-formed colours only, which is every palette colour
  (`PaletteIsHex`).
- MarbleSystems.DetectChanges: owner names are plain map keys. The JavaScript
  prototype-key quirk of `previous[owner] || 0`, for a name such as `constructor`, is
  not modelled. Stored counts are integers.
- `MarbleSystem.jars` is a map from owner to jar. The order of `Map` entries is not
  needed by any modelled operation.
