# Rainbow archery — a Dafny model of the game core

This project models the game logic of a small archery game built on the Phaser engine. A girl stands on a scrolling terrain. Once a new target has scrolled in, a rainbow appears between her and a cloud. While she aims, the arrow swings back and forth along the rainbow. A press shoots it, and it flies towards the target or off the screen. Then the rainbow disappears and the next target is scrolled in.

The model has one module per source component:

- `GameOptions`: the configuration record, with the consistency facts the other components rely on.
- `Geometry`: the value of pi, degree/radian conversion, `Math.round`, and the engine's trigonometric primitives, which are passed in as a `Trig` value.
- `Engine`: the sprite and cloud fields the game reads and writes, and the `forEach` that scrolls a list of sprites.
- `Targets`: the target with its random ring radii, its placement, its hit test and its re-seeding.
- `Rainbows`: the rainbow's geometry, its band drawing, its appear and disappear tween updates, and the cloud's target point.
- `Arrows`: the aiming swing, and the flight `shoot` starts.
- `Terrains`: the two tile strips and their wrap rule.
- `Scenes`: the game scene's state machine, the shot distance, the random target position, and the scroll closure with its running totals.

Objects the source updates in place are classes whose methods name what they modify. Every random draw is a parameter, restricted to the range the engine can produce:

- `FloatBetween` and `Between`;
- `RND.sign` (the sign draws in `PlaceDraws`);
- the cloud offsets `dx` and `dy`.

Tween callbacks are methods the engine would call. Each scroll update is `ScrollUpdate(v, d)`, where `v` is the tween value. The end of the scroll is `ScrollComplete`. The rainbow's appear and disappear updates are `AppearUpdate` and `DisappearUpdate`.

Numbers are exact reals. `Math.PI` is the exact value of the double it denotes.

## Model

| member | source | states |
|---|---|---|
| GameOptions.BandOffset | src/constant/GameOptions.ts:44-52 | half the rainbow colour count times the band width is 17.5 pixels |
| GameOptions.MinPerturbedRadius | src/constant/GameOptions.ts:37-41 | a ring perturbed down by the full tolerance is never below 10 pixels, for every base radius |
| GameOptions.RingTablesMatchAmount | src/constant/GameOptions.ts:29-38 | the colour and radius tables have exactly one entry per ring |
| GameOptions.ToleranceKeepsRadiiPositive | src/constant/GameOptions.ts:37-41 | the tolerance is a proper fraction and every base radius is positive |
| GameOptions.RangesOrdered | src/constant/GameOptions.ts:15-24 | the height range is ordered; the position range is ordered and lies within the screen |
| GameOptions.SpeedsPositive | src/constant/GameOptions.ts:54-60 | rotation and flying speeds are positive |
| Geometry.PiBounds | src/objects/Rainbow.ts:78 | the modelled `Math.PI` lies in (3.14159, 3.1416) |
| Geometry.RadToDeg | src/objects/Arrow.ts:61 | r radians are to π as the result in degrees is to 180 |
| Geometry.DegToRad | src/objects/Arrow.ts:96-99 | converting degrees to radians is the inverse of RadToDeg |
| Geometry.RadToDegMonotone | src/objects/Arrow.ts:73-93 | the degree bounds of the aim keep the order of the radian angles |
| Geometry.LineAngle | src/objects/Rainbow.ts:62-75 | the angle of a line is the engine's two-argument arctangent of its y and x differences; the engine function is a parameter, so nothing more is claimed |
| Geometry.LineLength | src/objects/Rainbow.ts:62-72 | the length of a line is the engine's square root of the squared differences; the engine function is a parameter, so nothing more is claimed |
| Geometry.Round | src/scenes/GameScene.ts:109-114 | `Math.round` gives the integer within half a unit of x, with halves going up |
| Geometry.RoundMonotone | src/scenes/GameScene.ts:108-115 | rounding preserves order |
| Engine.ShiftAll | src/scenes/GameScene.ts:190-192 | each listed sprite's x drops by the amount; no other field of any sprite changes |
| Targets.PerturbedRadius | src/objects/Target.ts:80-90 | a ring radius is the nearest integer to r(1 + f*s). It lies between the rounded bounds of the tolerance band. It is at least r for s = +1 and at most r for s = -1 |
| Targets.Sum | src/objects/Target.ts:93-96 | the radii sum, the left fold of `reduce` from 0; SumFront and SumOfPositives state its properties |
| Targets.SumOfPositives | src/objects/Target.ts:93-96 | positive radii sum to at least their count, so a placed target has a positive height |
| Targets.SumFront | src/objects/Target.ts:93-96 | the left fold of `reduce` equals the sum taken from the front |
| Targets.SuffixSumsDecrease | src/objects/Target.ts:131-146 | with positive radii, each suffix sum the ring loop uses is strictly larger than every later one |
| Targets.SetRing | src/objects/Target.ts:133-142 | one pass of the ring loop centres, tints and sizes the ring (width = ratio × height) and leaves its rotation and visibility alone |
| Targets.NewRings | src/objects/Target.ts:63-67 | the constructor's loop creates one new sprite per ring, no sprite twice |
| Targets.Target.constructor | src/objects/Target.ts:23-71 | fresh, distinct sprites, one per ring; the pole and pole shadow stand on the terrain line; the target is placed at twice the screen width |
| Targets.Target.Place | src/objects/Target.ts:75-147 | the new state is exactly `PlacedAt(posX, d)`: radii from the draws, pole as tall as the drawn height, pole top and shadow derived from the radii sum, nested rings |
| Targets.Target.DrawRadii | src/objects/Target.ts:77-90 | one radius per ring, each the perturbed radius of its own base radius and draws |
| Targets.Target.LayRings | src/objects/Target.ts:131-146 | ring k is centred at (posX, targetHeight), has tint k and height equal to the sum of radii k and onwards |
| Targets.Target.HitByArrow | src/objects/Target.ts:153-193 | the window test between the normalised angles to the top and bottom edges of the outer ring; what it means for the arrow's aim is stated by the three lemmas below |
| Targets.HitIffInWindow | src/objects/Target.ts:153-193 | while the normalised angle grows with y over a span holding the target, an arrow aimed at the point (outer ring x, y) hits if and only if y lies between the target's top and bottom edges |
| Targets.HitAtRingCentre | src/objects/Target.ts:153-193 | after a placement, under the same growth condition across the target, an arrow aimed at the centre of the rings hits |
| Targets.WrappedWindowMissesAll | src/objects/Target.ts:175-192 | when the top edge's normalised angle exceeds the bottom edge's, no arrow angle hits |
| Targets.Target.ShadowRight | src/objects/Target.ts:199 | the right edge of the shadow's bounds (its origin is its centre); PlacedGeometry places it right of posX + 5 |
| Targets.Target.AdjustPosition | src/objects/Target.ts:197-203 | nothing changes while the shadow's right edge is on screen; otherwise the target is re-placed at twice the width less the distance travelled |
| Targets.PlacedRadiiInTolerance | src/objects/Target.ts:80-90 | after a placement every radius lies in its tolerance band and is at least 10 |
| Targets.PlacedRingsNested | src/objects/Target.ts:122-146 | after a placement the outer ring is as tall as the radii sum, inner rings are strictly smaller in both dimensions, and every ring keeps the width ratio |
| Targets.PlacedGeometry | src/objects/Target.ts:99-128 | after a placement the pole is the drawn height (200 to 450) tall, the pole top is 10 below the top edge, the hit window spans the outer ring exactly, and the shadow's right edge is right of the pole |
| Rainbows.ArcRadius | src/objects/Rainbow.ts:70-72 | the inner radius is the anchor distance less 17.5 |
| Rainbows.ArcLength | src/objects/Rainbow.ts:78 | the arc length lies in [3π/4, π) |
| Rainbows.Bands | src/objects/Rainbow.ts:139-153 | one arc per colour, all with the same centre and angular span. Band k has colour k and radius `radius + 5k`. Each band starts where the previous band's stroke ends |
| Rainbows.BandsStraddleAnchor | src/objects/Rainbow.ts:62-72 | the cloud anchor lies inside the band stack: 17.5 outside the inner band, 12.5 inside the outer one |
| Rainbows.DrawnWhileAppearing | src/objects/Rainbow.ts:92-95 | the drawn span grows from 0 to the whole length and stays within it |
| Rainbows.DrawnWhileDisappearing | src/objects/Rainbow.ts:119-122 | the drawn span shrinks from the whole length to 0, and is the complement of the appearing span |
| Rainbows.MoveCloudTarget | src/objects/Rainbow.ts:174-187 | the cloud's destination is 0 to 100 pixels right of the start and 50 to 100 pixels above it, over the given duration |
| Rainbows.PutCloudOnBand | src/objects/Rainbow.ts:155-166 | pass k of the loop leaves the cloud at the given angle on the circle of radius `radius + k × width / 2` |
| Rainbows.PathPoint | src/objects/Cloud.ts:51-87 | the point of the cloud's straight path at tween value v: the start at v = 0 and the move's target at v = 1 |
| Rainbows.Rainbow.constructor | src/objects/Rainbow.ts:30-47 | empty graphics and two distinct fresh clouds |
| Rainbows.Rainbow.Appear | src/objects/Rainbow.ts:54-78 | the lower cloud is shown; the centre is the girl point; radius, start angle and length follow from the line to the cloud and the length draw |
| Rainbows.Rainbow.DrawRainbow | src/objects/Rainbow.ts:134-168 | the graphics hold exactly `Bands(...)`. The lower cloud ends at the end angle on the circle of radius `radius + 15`, which the last pass (k = 6) computes; that is band 3's radius, the middle of the stack |
| Rainbows.Rainbow.AppearUpdate | src/objects/Rainbow.ts:92-95 | the graphics are the bands of the appearing span at tween value v, and the lower cloud is at the end of that span on the circle of radius `radius + 15` |
| Rainbows.Rainbow.DisappearUpdate | src/objects/Rainbow.ts:119-122 | the graphics are the bands of the disappearing span at tween value v, and the lower cloud is at the end of that span on the circle of radius `radius + 15` |
| Rainbows.Rainbow.DisappearComplete | src/objects/Rainbow.ts:125-128 | the lower cloud is hidden |
| Arrows.AimIncrement | src/objects/Arrow.ts:69-70 | a frame turns the arrow by speed × dt / 1000 degrees, in the direction of the multiplier |
| Arrows.AimStep | src/objects/Arrow.ts:67-93 | inside the bounds the step is a plain advance. An overshoot clamps to the bound it crossed and flips the direction. The result stays within [lo, hi], and the direction flips only at a bound |
| Arrows.AimRun | src/objects/Arrow.ts:67-93 | the state after one AimStep per frame; AimRunBounded and AimRunForward state what a run does |
| Arrows.AimRunBounded | src/objects/Arrow.ts:67-93 | over any number of frames the multiplier stays ±1 and the angle stays between the rainbow's end angles |
| Arrows.AimRunForward | src/objects/Arrow.ts:69-70 | until the far bound is reached, a run of frames turns the arrow by the total elapsed time's increment, independent of how it is split into frames |
| Arrows.ShotFlight | src/objects/Arrow.ts:104-115 | the destination is `distance` along the rotation. The duration is the distance at the flying speed, positive for a positive distance. A non-finite distance gives no finite flight |
| Arrows.Arrow.constructor | src/objects/Arrow.ts:16-43 | the multiplier starts at 1; arrow and mask are hidden; the mask is 512 × 512 |
| Arrows.Arrow.Rotation | src/objects/Arrow.ts:96-99 | the rotation in radians corresponds to the angle in degrees |
| Arrows.Arrow.PrepareToAim | src/objects/Arrow.ts:47-62 | the mask goes off screen. The arrow is shown at (centre x + radius − 30, centre y), and its rotation is the start angle, which lies within the aim bounds |
| Arrows.Arrow.Aim | src/objects/Arrow.ts:67-100 | angle and multiplier advance by exactly one AimStep between the rainbow's end angles; the arrow lies on the circle of radius `radius - 30` at its new rotation |
| Terrains.WrapTile | src/objects/Terrain.ts:50-60 | a strip jumps right by one tile exactly when it is more than a tile off screen, and otherwise stays put; a strip at most two tiles off ends at most one tile off |
| Terrains.ScrollKeepsCover | src/objects/Terrain.ts:20-59 | scroll steps of at most one tile each keep a strip's x in [-256, 0], so the strip covers the screen |
| Terrains.Terrain.constructor | src/objects/Terrain.ts:11-47 | grass starts at 60 % of the height and is one tile high; dirt starts right below it and reaches the screen bottom; both are a tile wider than the screen |
| Terrains.Terrain.AdjustPosition | src/objects/Terrain.ts:50-60 | each strip's x becomes WrapTile of its old x |
| Scenes.Step | src/scenes/GameScene.ts:73-143 | the state is Idle afterwards exactly when it was Idle and the rainbow did not appear. A press fires only while aiming and otherwise leaves the state. An appearance always starts the aim. The flown event and frames leave the state |
| Scenes.NeverIdleAgain | src/scenes/GameScene.ts:73-143 | once out of Idle, no sequence of events returns the game to Idle |
| Scenes.IdleUntilAppeared | src/scenes/GameScene.ts:36-143 | starting Idle, the game is still Idle after a sequence of events if and only if the rainbow never appeared in it |
| Scenes.OneShotPerRainbow | src/scenes/GameScene.ts:73-105 | the presses that fire are at most the rainbow appearances, plus one if already aiming |
| Scenes.RandomPosition | src/scenes/GameScene.ts:108-115 | the position rounds f × width, and lies between the rounded ends of the 60 % to 90 % range |
| Scenes.ShotDistance | src/scenes/GameScene.ts:79-95 | a miss travels twice the screen width. On a hit with nonzero cosine, the distance times the cosine is the ring centre's x less the rainbow centre's x less the arrow's display width. A hit with zero cosine gives a non-finite distance |
| Scenes.ScrollStep | src/scenes/GameScene.ts:181-187 | one update's move is the change in tween value times deltaX; AdvanceTotal and TravelledTelescopes state its sums |
| Scenes.Travelled | src/scenes/GameScene.ts:179-192 | the total the callback adds up over a sequence of updates; TravelledTelescopes gives its closed form |
| Scenes.TravelledTelescopes | src/scenes/GameScene.ts:179-192 | the per-update shifts add up to (last value − first value) × deltaX, whatever the intermediate values |
| Scenes.ScrollTravelsDeltaX | src/scenes/GameScene.ts:168-192 | over a whole scroll tween ending at value 1, the per-update shifts add up to exactly deltaX |
| Scenes.AdvanceTotal | src/scenes/GameScene.ts:181-187 | one update keeps `totalTravelled == previousValue × deltaX` |
| Scenes.NewComponents | src/scenes/GameScene.ts:40-53 | terrain, target, rainbow and arrow are well formed; the target is placed at twice the width; no sprite is shared between them; the strips start at x = 0, the multiplier at 1 and the arrow hidden; every component, every sprite and cloud, and every ring is freshly allocated |
| Scenes.GameScene.constructor | src/scenes/GameScene.ts:36-70 | the game starts Idle with the invariant established. The girl point is derived from the terrain line. The first target tween is set up towards a random position. Both strips start at x = 0, so they cover the screen; the multiplier starts at 1 and the arrow is hidden. Every component and cloud, every ring and every entry of the scroll list is freshly allocated, so a caller may hand them to the handlers |
| Scenes.GameScene.HandlePointer | src/scenes/GameScene.ts:73-105 | outside Aiming nothing happens. While aiming, the state becomes Firing, and the arrow is shot with the shot distance of the hit test. On a hit the mask moves to the outer ring's centre |
| Scenes.GameScene.RainbowAppeared | src/scenes/GameScene.ts:128-134 | the state becomes Aiming and the arrow is prepared at the start of the rainbow |
| Scenes.GameScene.ArrowFlown | src/scenes/GameScene.ts:137-143 | the state is kept; a new scroll towards a fresh random position starts |
| Scenes.GameScene.Update | src/scenes/GameScene.ts:215-221 | only while aiming does a frame perform one AimStep, and the arrow then lies on the circle of radius `radius - 30` at its new rotation; otherwise the arrow is untouched |
| Scenes.GameScene.TweenTarget | src/scenes/GameScene.ts:147-173 | deltaX is twice the width less posX; the totals restart at 0; the scroll lasts 3 ms per pixel; the cloud moves off near the girl's head |
| Scenes.GameScene.ScrollUpdate | src/scenes/GameScene.ts:179-199 | the totals advance and the previous value becomes v, with the invariant total = previous value × deltaX kept. The arrow, mask and strips move left by the step, and the strips then wrap. While the shadow stays on screen, every target sprite moves left by the step with its y, size and tint kept, and the radii are kept. Once it is off screen, the target is re-placed at twice the width less the total travelled. Every scrolled sprite keeps its rotation and visibility. Sprites outside the target keep y, size and tint. The pole keeps its base |
| Scenes.GameScene.Advance | src/scenes/GameScene.ts:181-187 | the step is the value change times deltaX; the total and the previous value advance, and their ratio stays deltaX |
| Scenes.GameScene.ScrollBy | src/scenes/GameScene.ts:189-198 | the arrow, mask and strips move left by the shift and the strips wrap. The target either moves left by the shift with its other fields and radii kept, or is re-placed. The scene's own fields stay unchanged |
| Scenes.GameScene.ShiftStuff | src/scenes/GameScene.ts:190-192 | every scrolled sprite's x drops by the shift, and with it the shadow's right edge; only x is in the frame |
| Scenes.GameScene.AdjustStuff | src/scenes/GameScene.ts:194-198 | the strips wrap. If the shadow's right edge was on screen, every target sprite and the radii are unchanged; otherwise the target is re-placed at twice the width less the total travelled |
| Scenes.GameScene.CloudPathUpdate | src/objects/Cloud.ts:79-88 | an update of the cloud's path tween puts the upper cloud at the path point for v, and at the requested target at v = 1 |
| Scenes.GameScene.ScrollComplete | src/scenes/GameScene.ts:202-208 | the rainbow appears centred on the girl, with the lower cloud shown. It is directed towards the upper cloud and has a length drawn in [3π/4, π) |

## Left out

- Rendering, textures, alpha, origins, masks as bitmaps, depth order, and the girl's run and idle animations. These are engine output with no logic of their own.
- The girl sprite (`src/objects/Girl.ts`) is not modelled. Only its position is kept (`girlX`, `girlTop`, `girlCenterY`), and its texture height is a parameter.
- `src/objects/Cloud.ts` is modelled only for its path movement (`PathPoint`, `CloudPathUpdate`). The floating tween is left out. The path's start, which the source captures when the move begins, is a parameter of each update. A cloud's `posY` starts at 0 rather than undefined.
- Targets.HitIffInWindow and Targets.HitAtRingCentre require that the normalised angle grows over the target. The hit test holds no such guard. When the lines to the top and bottom edges straddle the angle where normalisation wraps to 0, WrappedWindowMissesAll shows that every arrow misses. Whether that can happen depends on the girl's texture height, which is outside this model.
- Tweens and timers are not scheduled. Their callbacks are methods the caller invokes:
  - each update of the scroll counter is `ScrollUpdate`, and its completion is `ScrollComplete`;
  - the appear and disappear updates are `AppearUpdate`, `DisappearUpdate` and `DisappearComplete`;
  - the "appeared" event is a call to `RainbowAppeared`;
  - the "flown" event, one second after the flight, is a call to `ArrowFlown`.
- Scenes.GameScene.ArrowFlown: does not itself start the disappear tween. The caller drives it through the rainbow's disappear methods.
- The arrow's flight is returned as the `Flight` the tween would run. The sprite does not move there.
- Randomness is a parameter: the draws of `FloatBetween`, `Between` and `RND.sign`.
- Floating point is modelled by exact reals: no rounding error, no NaN. Division by a zero cosine is the `NonFinite` distance.
- Trigonometry, square roots, `Line.Angle` and `Angle.Normalize` are caller-supplied functions. No facts about them are assumed.
- Phaser wraps a sprite's `angle` into the interval from -180 to 180. That wrap is not modelled.
- Engine sizes are display sizes:
  - the pole's `height` (`src/objects/Target.ts:113`) is its display height, which is the same at the unit scale the game uses;
  - the dirt strip's width is the grass strip's display width.
- `addClouds` is merged into the Rainbow constructor. The only difference is the clouds' draw order.
- The numeric value of the `GameState` enumeration is not modelled. `src/scenes/GameScene.ts` uses only the three names.
- Scenes.Step and the scene never return to Idle. No code path assigns Idle after `create`, and the model follows the code, not a cycle back to Idle after the shot.
- The app entry, the intro scene, the boot scene and the game configuration (`src/app.js`, `src/scene/intro.js`, `src/scenes/Bootstrap.ts`, `src/PhaserGame.ts`) are not part of this model.
