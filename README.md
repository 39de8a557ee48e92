# audio_visualizer fly-through core, in Dafny

This project models the per-frame simulation behind the visualizer's
"flying through layered shapes" effect, and proves properties of the model.
The effect is a list of flat 16-point patterns ("layers"). They move towards
a camera along the depth axis. New layers spawn at the far depth whenever the
travelled distance crosses the layer spacing, and a layer that comes too
close is retired. Each point is projected with a perspective scale and a
rotation. A rotation mode, replayed from a fixed script on a 10-second timer,
says what turns: nothing, the whole scene, or every layer on its own. A fade
overlay runs at start-up. The model covers:

- **`Scene`** (`rendering/Renderer.java`): the renderer as a class.
  - `update` is split into its steps: mode timer, fade-in, accumulator drain,
    layer loop, spawn, retirement, and whole-scene rotation.
  - `render` is modelled as the list of draws it would issue.
  - Also in this module: the mode script as a state machine, and the drain as
    a specification function.
- **`Effects`** (`rendering/Effects.java`):
  - alpha clamp and random colours;
  - the fade and speed ramps;
  - the initial population;
  - the two rotation-angle steps, with their single wrap into [0,360).
- **`Projection`**: the per-point arithmetic of `render`.
- **`LayerData`** (`layerdata/Layer.java`) and **`Timing`**
  (`utility/Timer.java`): the layer entity and the mode timer.
- **`DraftScene` and `DraftLayer`** (`main/Renderer.java`, `main/Layer.java`):
  the early draft of the scheduler. Its points carry their own depth and move
  in place.
- **`LevelShapes`, `DivGeometry`, `VisGeometry`**: the two variants of the
  `BasicGeometry` buffer builder (`div/` and `de/.../geometry/`).
  - They choose the shape from Java's `levelId % 4`.
  - They round vertex counts to multiples of 3, 4 and 12.
  - They reuse buffers in place.
  - Java's exceptions are modelled as an `Outcome` value.
- **`JavaMath`**: the Java numerics that differ from Dafny's. These are the
  truncating `(int)` cast, `Math.floor`, and the `%` that truncates toward
  zero.
- **`Lists`**: `List.remove(Object)` and the facts about duplicate-free lists
  that make retiring one layer well defined.

Floats are modelled as `real`. `Math.sin`, `Math.cos` and `Math.toRadians`
are uninterpreted functions, bundled in `JavaMath.Trig`. The clock
(`glfwGetTime()`) is a `now` parameter. The `Math.random()` results are a
stream `draws`: colour number `c` uses draws `4c` (alpha, drawn first) to
`4c + 3`.

Notes on what the code does:

- **Mode 4 decrements the layer angle.** `Effects.calculateLayerAngle` does
  this, although the renderer's comment (`rendering/Renderer.java:59-62`)
  calls mode 4 counterclockwise.
- **Mode 7 counts as a per-layer mode.** Both `update` and `render` test
  `>= 4`, so in mode 7 `render` recomputes each layer's cosine and sine from
  its own angle rather than using the identity.
- **The mode script contains 7.** After the clamp in `initializeSettings`,
  every mode in 0..7 can occur.
- **Spacing and depths.**
  - A non-positive layer spacing makes the drain loop in `update` run
    forever. `Scene.Renderer.Update`, `Scene.Renderer.Prepare` and
    `Scene.Renderer.DrainTravel` require `layerDistance > 0`; only
    `Scene.DrainAccumulator` also accepts a non-positive spacing with an
    accumulator already below it. The shipped `LAYER_DISTANCE` is 100.
  - A non-positive layer spacing also makes the loop of `createInitialLayers`
    run forever when the front distance is below `initZ`. The initial
    population and the constructor require a positive spacing in that case.
  - A zero depth makes Java's float division yield an infinite scale, and the
    frame is still drawn. Reals have no infinity, so rendering requires
    non-zero depths and a non-zero window size.
- **Three updates of 150 with spacing 100 spawn 4 layers.** The accumulator
  carries the remainder between updates (`Scene.ThreeUpdatesSpawnFour`).
- **`update` does not test the debug flag.** The flag is read only by the
  constructor and by `render`.

## Model

| member | source | states |
|---|---|---|
| JavaMath.TruncToInt | src/main/java/div/BasicGeometry.java:34 | `(int)` of a double rounds toward zero: the result is within 1 of the value and on the side of zero |
| JavaMath.FloorToInt | src/main/java/de/audio_vis_theeJ/audio_visualizer/geometry/BasicGeometry.java:15 | `(int) Math.floor(x)` is the greatest integer not above `x` |
| JavaMath.Rem | src/main/java/div/BasicGeometry.java:58 | Java's `%` for a positive divisor: the dividend is quotient times divisor plus remainder; the remainder takes the dividend's sign and is smaller than the divisor in magnitude |
| Timing.Timer.constructor | src/main/java/utility/Timer.java:18-22 | the duration is kept, counting starts at `now`, not triggered, and with a positive duration not elapsed at `now` |
| Timing.Timer.Reset | src/main/java/utility/Timer.java:36-39 | start at `now`, mark cleared; afterwards elapsed at `t` exactly when `t >= now + duration`, so not elapsed at `now` for a positive duration |
| Timing.Timer.MarkTriggered | src/main/java/utility/Timer.java:44-46 | after marking, `isElapsed` is false for every clock reading; the start time is kept |
| Timing.Timer.IsElapsed | src/main/java/utility/Timer.java:29-31 | elapsed only while not marked, and then exactly when `duration` has passed since the start |
| Timing.ElapsedStaysElapsed | src/main/java/utility/Timer.java:29-31 | `isElapsed` is monotone in the clock: once elapsed, elapsed at every later reading |
| LayerData.CreateSquare | src/main/java/layerdata/Layer.java:109-132 | exactly 16 points, first (260,0) and last (-300,-300), in the order the source adds them |
| LayerData.CreateShape | src/main/java/layerdata/Layer.java:100-102 | the default shape is the square pattern |
| LayerData.SquareIsPointSymmetric | src/main/java/layerdata/Layer.java:104-132 | every point's mirror through the origin is in the pattern, with an explicit opposite-index map |
| LayerData.Layer.constructor | src/main/java/layerdata/Layer.java:36-41 | depth `initZ`, angle 0, clock 0, the square pattern, and the caller's colour array itself (no copy) |
| LayerData.Layer.GetZ | src/main/java/layerdata/Layer.java:46-48 | the current depth; with `SetZ` it reads back the value last set |
| LayerData.Layer.GetCoordinates | src/main/java/layerdata/Layer.java:60-62 | the layer's own pattern, fixed since construction |
| LayerData.Layer.GetColor | src/main/java/layerdata/Layer.java:67-69 | the colour array itself, not a copy, so writes through it change the layer's colour; with `SetColor` it reads back the array last set |
| LayerData.Layer.GetRotationAngle | src/main/java/layerdata/Layer.java:83-85 | the current angle; with `SetRotationAngle` it reads back the value last set |
| LayerData.Layer.SetZ | src/main/java/layerdata/Layer.java:53-55 | `getZ()` returns the new value; colour, angle and clock unchanged |
| LayerData.Layer.SetColor | src/main/java/layerdata/Layer.java:76-78 | the layer now holds the caller's array by reference; depth, angle and clock unchanged |
| LayerData.Layer.SetRotationAngle | src/main/java/layerdata/Layer.java:90-92 | `getRotationAngle()` returns the new value; depth, colour and clock unchanged |
| Effects.ClampAlpha | src/main/java/rendering/Effects.java:131-136 | the result is at least the value and at least the floor, and is one of the two, so it is their maximum |
| Effects.ClampAlphaIdempotent | src/main/java/rendering/Effects.java:131-136 | clamping twice is clamping once |
| Effects.ClampAlphaMonotone | src/main/java/rendering/Effects.java:131-136 | the clamp preserves order |
| Effects.RandomRGBA | src/main/java/rendering/Effects.java:116-123 | four entries: r, g, b are the raw draws; alpha is at least the floor and the alpha draw, and within [0,1] when the draw is in [0,1) and the floor at most 1 |
| Effects.FadeStep | src/main/java/rendering/Effects.java:88-93 | while the lowered alpha `alpha - fadeSpeed * deltaTime` is positive it is the new alpha and the latch is kept; otherwise alpha is clamped to 0 and the latch is set; never negative, and a set latch is never cleared |
| Effects.FadeStepDecreases | src/main/java/rendering/Effects.java:89-93 | a positive step strictly lowers a positive alpha |
| Effects.FadeLatchHolds | src/main/java/rendering/Effects.java:88-93 | once the fade has completed, no run of updates clears `initialized` |
| Effects.FadeDecreases | src/main/java/rendering/Effects.java:89-93 | over any non-empty run of positive steps the alpha ends strictly lower and non-negative |
| Effects.FadeStaysClosed | src/main/java/rendering/Effects.java:89-93 | an alpha at 0 stays at 0 under positive steps |
| Effects.RampSpeed | src/main/java/rendering/Effects.java:94-96 | exactly 1.0 is added iff the speed is below the idle speed, else the speed is kept; a speed below `idleSpeed + 1` stays below it |
| Effects.RampStaysBelowCeiling | src/main/java/rendering/Effects.java:94-96 | over any number of ramp steps the speed never decreases and never reaches `idleSpeed + 1` |
| Effects.Wrap360 | src/main/java/rendering/Effects.java:169-171 | a single wrap maps any value in [-360,720) into [0,360), leaves [0,360) alone, and moves a value by at most one turn |
| Effects.SwingBounded | src/main/java/rendering/Effects.java:165 | with a sine in [-1,1] the oscillation angle stays within the amplitude |
| Effects.RotationStepKeepsRange | src/main/java/rendering/Effects.java:151-174 | with steps of at most a full turn, an angle in [0,360) stays in [0,360) in every mode |
| Effects.RotationStep | src/main/java/rendering/Effects.java:151-174 | the oscillation clock advances by `deltaTime` in the oscillating mode and is kept in every other mode |
| Effects.RotationStepTurns | src/main/java/rendering/Effects.java:190-213 | the decrementing, incrementing and oscillating modes give an angle in the same direction as `angle - speed * deltaTime`, `angle + speed * deltaTime` and the swing, at most one turn away; outside the three modes (mode 7 for layers) an in-range angle is unchanged |
| Effects.CalculateAngles | src/main/java/rendering/Effects.java:226-232 | the (cos, sin) pair of the angle in radians; when sine and cosine satisfy the Pythagorean identity it is a unit rotation |
| Effects.GetAngles | src/main/java/rendering/Effects.java:219-232 | mode 0 or below gives the identity (1,0) without trigonometry; every mode above 0 gives (cos, sin) of the angle in radians |
| Effects.InitialDepths | src/main/java/rendering/Effects.java:72-83 | depth `i` of the initial population is `front + i * d` |
| Effects.InitialDepthsShape | src/main/java/rendering/Effects.java:72-83 | the initial depths start at the front distance, are spaced by the layer distance, strictly increase, all lie below `initZ`, stop at the first that would reach it, and are empty iff the front is not below `initZ` |
| Effects.Effects.constructor | src/main/java/rendering/Effects.java:34-67 | every setting from the configuration, fade not complete, oscillation clock 0 |
| Effects.Effects.IsInitialized | src/main/java/rendering/Effects.java:102-104 | true exactly when the fade-in has completed, which `UpdateFadeAlpha` sets once the alpha reaches 0 |
| Effects.Effects.GetFadeAlpha | src/main/java/rendering/Effects.java:109-111 | the current overlay alpha, the value `UpdateFadeAlpha` leaves and `Render` draws the overlay with |
| Effects.Effects.UpdateFadeAlpha | src/main/java/rendering/Effects.java:88-97 | the fade state takes one `FadeStep`; the renderer's speed comes back as `RampSpeed` of it |
| Effects.Effects.GenerateRandomRGBA | src/main/java/rendering/Effects.java:116-123 | a fresh 4-entry array holding `RandomRGBA` of the draws |
| Effects.Effects.NewLayer | src/main/java/rendering/Effects.java:77-78 | a fresh layer with a fresh colour array at the given depth, coloured from the colour number's draws |
| Effects.Effects.AppendLayer | src/main/java/rendering/Effects.java:76-80 | one loop round: the list grows by one fresh layer at the end; earlier layers stay as created; layers and colour arrays stay pairwise distinct |
| Effects.Effects.CreateInitialLayers | src/main/java/rendering/Effects.java:72-83 | one fresh layer per initial depth, in that order, layer `i` coloured from draws `4i..4i+3`, all layers and colour arrays distinct |
| Effects.Effects.CalculateRotationAngle | src/main/java/rendering/Effects.java:151-174 | the scene angle and clock take the base-1 `RotationStep` (1 decrement, 2 increment, 3 oscillate, other modes only wrap) |
| Effects.Effects.CalculateLayerAngle | src/main/java/rendering/Effects.java:190-213 | the layer's angle and clock take the base-4 `RotationStep` (4 decrement, 5 increment, 6 oscillate, 7 only wrap); the layer's depth, colour and stored angle are untouched |
| Projection.Project | src/main/java/rendering/Renderer.java:224-246 | the quad scale is `focalLength / z * baseScale`; the NDC offset is the rotated point times `focalLength / z` over half the viewport, the centre and NDC shifts cancelling |
| Projection.IdentityRotation | src/main/java/rendering/Renderer.java:238-239 | the rotation (1,0) leaves a point unchanged |
| Projection.OriginProjectsToCentre | src/main/java/rendering/Renderer.java:242-246 | the model origin lands at NDC (0,0) for any rotation and depth |
| Projection.FocalDepthKeepsBaseScale | src/main/java/rendering/Renderer.java:225-226 | a layer at the focal distance is drawn at exactly the base scale |
| Projection.ProjectOpposite | src/main/java/rendering/Renderer.java:238-246 | mirroring a point mirrors its NDC offset and keeps its scale |
| Lists.RemoveAt | src/main/java/rendering/Renderer.java:188 | removal by position: one shorter, earlier entries kept, later ones shifted down |
| Lists.IndexOf | src/main/java/rendering/Renderer.java:188 | the position `List.remove(Object)` finds: an occurrence with none before it |
| Lists.RemoveFirst | src/main/java/rendering/Renderer.java:188 | `List.remove(Object)` drops the first occurrence and nothing else, and changes nothing when the element is absent |
| Lists.PrependDistinct | src/main/java/rendering/Renderer.java:184 | inserting a new element at index 0 keeps the list free of duplicates |
| Lists.IndexOfDistinct | src/main/java/rendering/Renderer.java:188 | without duplicates, the first occurrence of entry `i` is `i` |
| Lists.RemoveAtDistinct | src/main/java/rendering/Renderer.java:188 | removal keeps the list free of duplicates and drops exactly that element |
| Lists.RetireBehindSpawns | src/main/java/rendering/Renderer.java:182-189 | with the spawns in front, removing the retired old layer leaves the spawns followed by the survivors, without duplicates |
| Lists.Survivors | src/main/java/rendering/Renderer.java:187-189 | the list shrinks by one exactly when a layer is retired, and is unchanged otherwise |
| Lists.SurvivorAt | src/main/java/rendering/Renderer.java:187-189 | survivor `k` is old entry `k` before the retired position and old entry `k + 1` from it on |
| Lists.AppendDistinct | src/main/java/main/Renderer.java:78-81 | two duplicate-free lists with no common element join without duplicates |
| Lists.RetireBeforeAppends | src/main/java/main/Renderer.java:78-85 | with the spawns appended, removing the retired old layer leaves the survivors followed by the spawns, without duplicates |
| Scene.ClampMode | src/main/java/rendering/Renderer.java:117-122 | the mode ends in 0..6; a mode in range is kept, any other becomes 0 |
| Scene.NextMode | src/main/java/rendering/Renderer.java:148-150 | one expiry: the counter wraps to 0 once past the script, the mode is the script entry at the counter, and the counter advances by one |
| Scene.ModesFollowScript | src/main/java/rendering/Renderer.java:140-151 | from counter `c`, successive expiries read the script straight on |
| Scene.ModesWrapAround | src/main/java/rendering/Renderer.java:148 | a counter past the end of the script behaves like a fresh counter |
| Scene.ModesFinishScript | src/main/java/rendering/Renderer.java:140-151 | from counter `c`, the rest of the script plays, then it starts over |
| Scene.ModesCycle | src/main/java/rendering/Renderer.java:140-151 | from a fresh counter the modes are the script's prefix, and every later run is the script followed by the same run again |
| Scene.ShippedScriptCycles | src/main/java/rendering/Renderer.java:67 | the shipped 15-entry script plays in order, and then modes 0 and 1 follow |
| Scene.Span | src/main/java/rendering/Renderer.java:165-168 | spacings laid end to end are non-negative for a non-negative spacing |
| Scene.SpanIsProduct | src/main/java/rendering/Renderer.java:165-168 | `n` spacings add up to `n * d` |
| Scene.SpanAdd | src/main/java/rendering/Renderer.java:165-168 | spans laid end to end add |
| Scene.DrainSpec | src/main/java/rendering/Renderer.java:165-168 | spawns times spacing plus remainder equals the accumulator; the remainder is below one spacing and non-negative for a non-negative accumulator; nothing spawns iff the accumulator is below one spacing |
| Scene.DrainUnique | src/main/java/rendering/Renderer.java:165-168 | any count and remainder in [0, spacing) that add up to the accumulator are what the drain yields |
| Scene.DrainRunAdds | src/main/java/rendering/Renderer.java:162-168 | over a run of updates with no backward motion, spawns times spacing plus the final remainder equal the start plus all the travel, and the remainder stays in [0, spacing) |
| Scene.DrainRunIsOneDrain | src/main/java/rendering/Renderer.java:162-168 | over a run of updates with no backward motion, the spawns and final remainder equal one drain of the total travel, however the travel is split into frames |
| Scene.ThreeUpdatesSpawnFour | src/main/java/rendering/Renderer.java:162-168 | three updates moving 150 with spacing 100 spawn 4 layers and leave 50 |
| Scene.DrainAccumulator | src/main/java/rendering/Renderer.java:165-168 | the drain loop yields exactly `DrainSpec`, and with a non-positive spacing it runs only when the accumulator is already below it and then spawns nothing |
| Scene.LastBelow | src/main/java/rendering/Renderer.java:170-175 | the retired index has a depth strictly below the threshold and no later layer has one; none iff all depths are at or above it |
| Scene.LastBelowSnoc | src/main/java/rendering/Renderer.java:173-174 | a later layer below the threshold overrides an earlier choice |
| Scene.LayerRotation | src/main/java/rendering/Renderer.java:210-233 | per-layer modes (4 and up) rotate by the layer's own angle, modes 1..3 by the scene angle, other modes by the identity |
| Scene.PointDraw | src/main/java/rendering/Renderer.java:235-254 | one textured quad in the layer colour with the window aspect and scale `focalLength / z * baseScale`; the model origin lands at the viewport centre |
| Scene.LayerDraws | src/main/java/rendering/Renderer.java:221-254 | one draw per point, in point order, each under the rotation the mode picks for the layer |
| Scene.FrameDraws | src/main/java/rendering/Renderer.java:221-255 | every layer draw is textured and uses the window aspect, so only the overlay is untextured |
| Scene.Overlay | src/main/java/rendering/Renderer.java:264-277 | an untextured quad with alpha `fadeAlpha`, whose colour is a valid RGBA when the alpha is in [0,1] |
| Scene.FrameDrawsLength | src/main/java/rendering/Renderer.java:221-255 | with 16-point layers a frame issues 16 draws per layer |
| Scene.FrameDrawsAt | src/main/java/rendering/Renderer.java:221-255 | draw `16k + j` is point `j` of layer `k` projected at that layer's depth, with its rotation and colour |
| Scene.NoRotationInModeZero | src/main/java/rendering/Renderer.java:210-218 | in mode 0 every point is drawn at its unrotated projection |
| Scene.FirstLayers | src/main/java/rendering/Renderer.java:87-92 | in debug mode one fresh layer at the debug depth with the debug colour, otherwise one fresh layer per initial depth with its drawn colour; all distinct, unturned, with the square pattern and 4-entry colours |
| Scene.Renderer.constructor | src/main/java/rendering/Renderer.java:77-130 | settings from the configuration, including every fade, speed, rotation and swing setting of the fresh effects; mode 0, a fresh 10-second timer started at `now`, fresh effects, and either the one debug layer or one fresh layer per initial depth with its drawn colour; every layer carries the square pattern; the scene invariant holds (every colour has 4 entries) and every angle is in [0,360) |
| Scene.Renderer.StepLayer | src/main/java/rendering/Renderer.java:172-179 | the layer moves `zMovement` closer and, in modes 4 and up, takes the base-4 angle step |
| Scene.Renderer.StatesStepped | src/main/java/rendering/Renderer.java:170-180 | layers that each took one step together hold the stepped snapshots |
| Scene.StatesFramed | src/main/java/rendering/Renderer.java:170-193 | layers whose objects did not change still hold the same snapshots |
| Scene.Renderer.MoveLayers | src/main/java/rendering/Renderer.java:170-180 | every layer is stepped exactly once; the chosen layer is the last one whose new depth is below `removeLayerDistance`, or none |
| Scene.Renderer.PrependSpawn | src/main/java/rendering/Renderer.java:183-184 | a fresh layer at `initZ` with the next colour is inserted at index 0; the list stays duplicate-free |
| Scene.Renderer.SpawnLayers | src/main/java/rendering/Renderer.java:182-185 | `n` fresh, distinct layers at `initZ`; the one made from colour `c` ends at index `n - 1 - c` |
| Scene.Renderer.SpawnInFront | src/main/java/rendering/Renderer.java:182-189 | the result is the `n` spawns followed by the old list minus the retired layer, without duplicates |
| Scene.Renderer.SteppedLayer | src/main/java/rendering/Renderer.java:172-179 | a stepped layer keeps its colour array, and under small steps a per-layer angle in [0,360) stays in it |
| Scene.Renderer.SteppedKeep | src/main/java/rendering/Renderer.java:170-180 | every stepped layer keeps its 4-entry colour and, under small steps, an angle in [0,360) |
| Scene.Renderer.TravelKeeps | src/main/java/rendering/Renderer.java:182-189 | every layer after spawning and retirement is a kept survivor or a fresh spawn, so a list whose layers all had 4-entry colours and (under small steps) in-range angles yields one that does too |
| Scene.Renderer.AdvanceLayers | src/main/java/rendering/Renderer.java:170-189 | layers are stepped, `n` spawns go in front, the last layer that came too close is removed |
| Scene.Renderer.AdvanceMode | src/main/java/rendering/Renderer.java:140-151 | on expiry the timer restarts and mode and counter take `NextMode`; otherwise mode, counter and timer are unchanged; layers, speed, accumulator and angle untouched |
| Scene.Renderer.AdvanceFade | src/main/java/rendering/Renderer.java:154-156 | before the fade completes, one `FadeStep` and one `RampSpeed`; afterwards nothing changes |
| Scene.Renderer.DrainTravel | src/main/java/rendering/Renderer.java:162-168 | the travel is `speed * deltaTime`; the spawn count and new accumulator are `DrainSpec` of the old accumulator plus the travel |
| Scene.Renderer.SetLayers | src/main/java/rendering/Renderer.java:170-189 | the renderer adopts the new list, keeps the invariant and, under small steps, the angle range; no layer object changes |
| Scene.Renderer.TravelLayers | src/main/java/rendering/Renderer.java:170-189 | on the renderer's list: every old layer stepped, `newLayers` fresh spawns with their drawn colours in front of the survivors, the retired one gone; the invariant and, under small steps, the angle range are kept |
| Scene.Renderer.TurnScene | src/main/java/rendering/Renderer.java:191-193 | the scene angle and clock take the base-1 step in modes 1..3 and are unchanged otherwise; under small steps the angle stays in [0,360); layers, their snapshots and the spawns in front are untouched |
| Scene.Renderer.Prepare | src/main/java/rendering/Renderer.java:140-168 | the mode step on expiry, the fade and speed ramp, and the drain of `speed * deltaTime` into spawns and remainder; without expiry the timer keeps its start time and mark; layers and angle untouched |
| Scene.Renderer.Finish | src/main/java/rendering/Renderer.java:170-193 | the layer loop with spawns and retirement, then the scene rotation, on the travel and spawn count `Prepare` computed |
| Scene.Renderer.Update | src/main/java/rendering/Renderer.java:137-194 | on expiry the timer restarts and mode and counter take `NextMode`, otherwise they and the timer's start time and mark are kept; before the fade completes one `FadeStep` and one `RampSpeed`; the accumulator keeps the `DrainSpec` remainder of the old accumulator plus `speed * deltaTime`; every old layer is stepped by that travel; `DrainSpec`'s count of fresh layers, with their drawn colours, goes in front of the survivors, with the last layer below `removeLayerDistance` gone; the scene angle takes its step; the invariant holds, and under small steps every angle stays in [0,360) |
| Scene.Renderer.DrawPoints | src/main/java/rendering/Renderer.java:235-254 | one draw per point, in order, each the projection of that point |
| Scene.Renderer.RenderLayer | src/main/java/rendering/Renderer.java:221-254 | one layer's draws under the mode's rotation; in the per-layer modes the rotation is recomputed from the layer's angle, otherwise the precomputed one is used |
| Scene.Renderer.DrawLayers | src/main/java/rendering/Renderer.java:210-255 | all layers' draws in list order, as `FrameDraws` specifies |
| Scene.Renderer.View | src/main/java/rendering/Renderer.java:221-235 | what the layer loop reads of one layer: its pattern, depth and angle, and the first four colour channels |
| Scene.Renderer.Views | src/main/java/rendering/Renderer.java:221-235 | one view per layer, in list order, each that layer's `View`, all at drawable depths for the scene's camera |
| Scene.Renderer.Render | src/main/java/rendering/Renderer.java:199-277 | the frame is every layer's draws followed by the overlay (black, alpha `fadeAlpha`, offset (0,0), scale 2, aspect 1, untextured) exactly when the fade is incomplete and not in debug mode |
| DraftLayer.CreateSquare | src/main/java/main/Layer.java:51-75 | 16 points, all at depth 3000 |
| DraftLayer.CreateShape | src/main/java/main/Layer.java:47-49 | the default shape is the square pattern |
| DraftLayer.DraftOutlineIsFinalOutline | src/main/java/main/Layer.java:51-75 | the draft pattern is the final pattern point for point, at depth 3000 |
| DraftLayer.Layer.constructor | src/main/java/main/Layer.java:14-20 | a fresh 4-entry colour array holding the caller's first four entries (so later writes to the caller's array do not reach the layer), and the square pattern |
| DraftLayer.Layer.GetCoordinates | src/main/java/main/Layer.java:22-24 | the layer's current points, the square pattern until `Update` moves them |
| DraftLayer.Layer.GetColor | src/main/java/main/Layer.java:27-29 | the layer's own array itself, so writes through it alias the layer's colour |
| DraftLayer.Layer.SetColor | src/main/java/main/Layer.java:31-35 | the same array object now holds the caller's first four entries (also when the caller passes the layer's own array) |
| DraftScene.Closer | src/main/java/main/Renderer.java:67 | a point keeps x and y and moves closer |
| DraftScene.Advanced | src/main/java/main/Renderer.java:65-67 | every point keeps x and y and is 2.0 closer |
| DraftScene.AdvancedAll | src/main/java/main/Renderer.java:61-67 | every layer's points are advanced |
| DraftScene.SpawnCount | src/main/java/main/Renderer.java:63-71 | at most one spawn per layer; none iff no layer has a point at exactly 2900 |
| DraftScene.LastNear | src/main/java/main/Renderer.java:72-74 | the retired layer has a point below 30 and no later layer has one; none iff no layer has one |
| DraftScene.Summons | src/main/java/main/Renderer.java:68-71 | a layer whose points share one depth summons a successor exactly when that depth is 2900 |
| DraftScene.Near | src/main/java/main/Renderer.java:72-74 | a layer whose points share one depth is close enough to retire exactly when that depth is below 30 |
| DraftScene.DepthAfterUpdates | src/main/java/main/Renderer.java:67 | after `k` updates every point of a new layer is at depth `3000 - 2k` |
| DraftScene.SummonsOnlyInFiftiethUpdate | src/main/java/main/Renderer.java:68-71 | a layer summons a successor in its 50th update and in no other |
| DraftScene.NearFromUpdate1486 | src/main/java/main/Renderer.java:72-74 | a layer is close enough to retire from its 1486th update on |
| DraftScene.NewWhiteLayer | src/main/java/main/Renderer.java:79-80 | a fresh layer with a fresh colour array (1,1,1,1) and the square pattern |
| DraftScene.Renderer.constructor | src/main/java/main/Renderer.java:32-41 | exactly one fresh white layer; the given texture and window size; focal length 300 and base scale 0.15 |
| DraftScene.Renderer.FromList | src/main/java/main/Renderer.java:43-48 | the renderer adopts the given list unchanged |
| DraftScene.Renderer.SetBaseScale | src/main/java/main/Renderer.java:50-52 | the base scale is set; the layers are untouched |
| DraftScene.Renderer.MovePoints | src/main/java/main/Renderer.java:65-75 | the layer's points are advanced in place; the counter rises by one iff some new depth is exactly 2900; the layer becomes the one to remove iff some new depth is below 30 |
| DraftScene.Renderer.MoveLayerAt | src/main/java/main/Renderer.java:61-76 | one pass of the layer loop moves exactly layer `i` and extends the count and the retirement choice by it |
| DraftScene.Renderer.MoveLayers | src/main/java/main/Renderer.java:61-76 | all layers advanced; the count is `SpawnCount` and the retired layer is `LastNear` of the advanced shapes |
| DraftScene.Renderer.AppendWhiteLayers | src/main/java/main/Renderer.java:78-81 | `n` fresh, distinct white layers are appended at the end; the old list is a prefix |
| DraftScene.Renderer.SpawnAndRetire | src/main/java/main/Renderer.java:78-85 | survivors in order followed by the `n` white spawns; size old + n − (1 if retired); duplicate-free |
| DraftScene.Renderer.AdvanceLayers | src/main/java/main/Renderer.java:58-85 | layers advanced, spawns appended, the last near layer removed |
| DraftScene.Renderer.Update | src/main/java/main/Renderer.java:55-88 | every point 2.0 closer; one white layer appended per summoning layer; the last layer with a point below 30 removed; size accounting; no duplicates; base scale kept |
| LevelShapes.ShapeFor | src/main/java/div/BasicGeometry.java:58-67 | Java's remainder makes every negative level id build triangles; for non-negative ids remainders 0, 1, 2, 3 pick triangle, circle, rectangle, cross |
| LevelShapes.TargetLength | src/main/java/div/BasicGeometry.java:70-103 | the circle takes every vertex; for a non-negative count the target is in [0, numVert] and less than one step below it |
| LevelShapes.TargetLengthRoundsTowardZero | src/main/java/div/BasicGeometry.java:70-103 | the target length is `numVert` rounded toward zero to a multiple of 3, 1, 4 or 12 (with the bounds above, the largest such multiple not above a non-negative count) |
| LevelShapes.NegativeTarget | src/main/java/div/BasicGeometry.java:70-103 | the target is negative (so the allocation throws) iff `numVert` is at least one step below zero |
| LevelShapes.Float32Array.constructor | src/main/java/div/BasicGeometry.java:12-14 | a fresh zeroed array of the given size |
| LevelShapes.Float32Array.FromData | src/main/java/div/BasicGeometry.java:16-18 | wraps the caller's array itself |
| LevelShapes.Float32Array.GetData | src/main/java/div/BasicGeometry.java:20-22 | the wrapped array itself |
| LevelShapes.Float32Array.Length | src/main/java/div/BasicGeometry.java:24-26 | the wrapped array's length |
| LevelShapes.Allocate | src/main/java/div/BasicGeometry.java:74 | a negative size throws `NegativeArraySizeException`; otherwise a fresh zeroed array of that size |
| LevelShapes.Processed | src/main/java/div/BasicGeometry.java:49 | the loop covers its count, or the array's length when the count is larger, or nothing for a count of zero or less |
| DivGeometry.BasicGeometry.constructor | src/main/java/div/BasicGeometry.java:6-7 | 20 zero settings and no previous result |
| DivGeometry.BasicGeometry.NumVert | src/main/java/div/BasicGeometry.java:71 | `levelSettings[2] / 100` truncated toward zero: at most it and above it minus 1 when non-negative, at least it and below it plus 1 when negative; 0 for a zero setting |
| DivGeometry.BasicGeometry.MakeLevelData | src/main/java/div/BasicGeometry.java:57-103 | a buffer of exactly the target length is returned as it is; otherwise a fresh zeroed buffer of the target length, or `NegativeArraySize` for a negative target |
| DivGeometry.BasicGeometry.ShapeGeometry | src/main/java/div/BasicGeometry.java:41-55 | null stays null; entries below the count are rebuilt in place and the rest untouched; a negative target throws before any change; a count past the end throws `ArrayIndexOutOfBounds` after the in-range entries are rebuilt |
| DivGeometry.BasicGeometry.Build | src/main/java/div/BasicGeometry.java:29-39 | the result array is kept when its length is `(int) levelSettings[0]`, reallocated otherwise (`NegativeArraySize` for a negative count), and a successful result is stored back |
| VisGeometry.BasicGeometry.constructor | src/main/java/de/audio_vis_theeJ/audio_visualizer/geometry/BasicGeometry.java:6-7 | 20 zero settings and no result array |
| VisGeometry.BasicGeometry.NumVert | src/main/java/de/audio_vis_theeJ/audio_visualizer/geometry/BasicGeometry.java:55 | `levelSettings[2] / 100` rounded down: the greatest integer not above it, also for negative settings; 0 for a zero setting |
| VisGeometry.BasicGeometry.MakeLevelData | src/main/java/de/audio_vis_theeJ/audio_visualizer/geometry/BasicGeometry.java:41-75 | any existing buffer is returned as it is, whatever its length; a missing one becomes a fresh zeroed buffer of the target length, or `NegativeArraySize` for a negative target |
| VisGeometry.BasicGeometry.ShapeGeometry | src/main/java/de/audio_vis_theeJ/audio_visualizer/geometry/BasicGeometry.java:24-39 | null stays null; existing buffers never change; missing entries below the count are filled in place; `NegativeArraySize` iff the target is negative and such an entry is missing, and then the array is untouched; a count past the end throws `ArrayIndexOutOfBounds` |
| VisGeometry.BasicGeometry.Build | src/main/java/de/audio_vis_theeJ/audio_visualizer/geometry/BasicGeometry.java:10-22 | the result array is allocated only when there is none and is never replaced or resized; with the shipped all-zero settings the first build returns an empty array |

## Left out

- OpenGL, GLFW and the shader plumbing (uniform locations, texture binding, `glDrawArrays`): `render` and `renderFadeLayer` are modelled as the list of draws they issue, each draw holding the uniforms set for it.
- IEEE `float` rounding: all floating-point values are `real`, so, for example, the draft's exact test against 2900 is exact here as it is for the shipped constants.
- `Math.sin`, `Math.cos`, `Math.toRadians` are uninterpreted; `Math.random()`, `java.util.Random` and `glfwGetTime()` are parameters.
- The `AppRunner` back-reference and the debug flag's origin: the debug flag is a constructor parameter.
- The `Effects` back-reference to the renderer: `rotationMode` is passed in and the ramped `speed` is returned for the renderer to store.
- JavaMath.TruncToInt: does not model the saturation of Java's `(int)` cast at the `int` range.
- JavaMath.FloorToInt: does not model the saturation of Java's `(int)` cast at the `int` range, nor `(int)` of NaN giving 0; reals have no NaN.
- Scene.Renderer.Update, Scene.Renderer.TurnScene, Scene.Renderer.TravelLayers: the angles stay in [0,360) only under `SmallSteps`, that is, when every step and swing is at most a full turn and the sine is bounded. Java's single wrap leaves the range for larger steps, so no stronger promise holds for the code as written.
- Scene.Renderer.constructor: requires the debug colour to have 4 entries, as the shipped configuration's has.
- Scene.Renderer.constructor and Scene.FirstLayers: the debug layer gets its own copy of the debug colour. In Java it shares the configuration's `DEBUG_RGBA` array (`rendering/Renderer.java:89` with `layerdata/Layer.java:37`). This follows from holding the configuration as values.
- Effects.InitialDepths and Effects.Effects.CreateInitialLayers: the depths are unbounded integers. Java's `currentZ += layerDistance` overflows `int` and wraps, which is not modelled. With `initZ` and the spacing well inside the `int` range, no wrap happens before the loop ends.
- Scene.Renderer.AdvanceMode, Scene.Renderer.Prepare and Scene.Renderer.Update: one clock reading `now` serves both the expiry test and the restart. Java reads `glfwGetTime()` twice (`utility/Timer.java:30` and `:37`), so the restart time can be slightly later than the time tested.
- DraftScene.Renderer.FromList: holds the layers as a sequence value. Java keeps the caller's `List` itself (`main/Renderer.java:44`), so each `update` also changes the caller's list; that sharing is not modelled.
- Scene.Renderer.Update and DraftScene.Renderer.Update: require the layer list to be free of duplicates; a list with the same layer twice (possible only through the draft's list constructor) is not modelled.
- Scene.Renderer.Render: requires non-zero depths and a non-zero window size. Java divides by them in `float` and draws with an infinite or NaN offset and scale, which reals cannot represent.
- Scene.Renderer.Render: every colour has 4 entries, by the scene invariant. A shorter array makes Java throw `ArrayIndexOutOfBoundsException` at `rendering/Renderer.java:222`; that exception is not modelled.
- LayerData.Layer: the coordinate list is an immutable value, so the fresh `ArrayList` each layer gets, and writes through `getCoordinates()`, are not modelled; the draft's `Coordinate3D` objects are values held in a sequence the draft layer reassigns.
- The draft's `render` (the same projection without rotation) is not modelled.
- The random start and end scales in both `BasicGeometry` builders never reach the buffers and are not modelled; the builders' `Float32Array` is shared by both variants (the `de` variant's class has no `length()` and no wrapping constructor).
- DivGeometry.BasicGeometry.Build and VisGeometry.BasicGeometry.Build: state the (re)allocation and the stored result; the contents of the result are stated by `ShapeGeometry`.
- The Java exceptions are values of `LevelShapes.Outcome`; what callers do with a thrown exception is not modelled.
- `main/Config.java` is only a source of constant values (`Settings.Default`).
