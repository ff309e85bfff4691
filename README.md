# Aim-trainer player controls, target placement and weapon sway

A Dafny model of the stateful logic in a browser first-person aim trainer
built on three.js:

- the **look-only controller** (`Controls`). Its "mousemove" handler turns a
  yaw object while the pointer is locked to the canvas. It also tilts a
  pitch object, whose angle it clamps to [-pi/2, pi/2]. Its per-frame update
  does nothing.
- the **movement controller** (`ControlsWithMovement`). It has a held-key
  record that "keydown"/"keyup" fill, the same look handler, and a per-frame
  update. The update builds a W/A/S/D direction and hard-clamps the rig to
  the room rectangle x in [-6.2, 8.2], z in [-7.3, 7.3]. It then lerps the
  velocity toward the planar target by 0.002, decays it by 0.9^deltaTime and
  moves the rig by velocity times deltaTime.
- **rejection-sampling target placement** (`RandomCubeGenerator`). Up to 50
  random positions are tried. The first whose box touches no existing
  target becomes a new cube, which is appended to the target list.
- **weapon sway** (`Pistol`). The pistol's x offset approaches five times
  the camera's yaw change since the last frame, at rate 10 per second.

Each source class is a Dafny class with the fields the modelled methods
read and write. The camera, DOM element, pitch and yaw objects and scene
references are not fields, and `moveSpeed`, `acceleration` and `damping`,
which no method changes, are module constants. Each method
`ensures` that the new state equals a specification function of the old
state. The properties the code guarantees are proved about those
functions: as their `ensures`, and as lemmas over whole sequences of
events or frames.

Modelling choices:

- Numbers are `real`s. pi/2 is the double nearest to it, and the proofs
  use only that it is positive.
- `Math.pow(damping, deltaTime)` is the parameter `decay`. The predicate
  `DampingPower` fixes the facts the proofs use: it is positive, exactly 1
  when deltaTime is 0, and below 1 when deltaTime is positive.
- `normalize()` followed by `applyQuaternion(yaw)` is the parameter
  `orient`. The only fact about it the proofs use is that it maps the zero
  vector to itself (`FixesZero`).
- `Math.random()` is a sequence `draws`, three per attempt, in the order
  the code reads them: y, then z, then x.
- `Box3.intersectsBox` is taken to be closed-interval overlap on all three
  axes, so boxes that only touch do intersect. That is three.js's
  definition, but it is stated here as an assumption.
- A new cube's box is its position plus or minus 0.2. That is half of the
  unit `BoxGeometry` at scale 0.4. Existing targets carry their own half
  extent.
- `new Cube(this.randomColors, true, shootable)` in
  src/objects/RandomCubeGenerator.ts:21 does not match the constructor
  `Cube(position?)` in src/objects/Cube.ts:5. With that constructor the
  geometry is still 1x1x1, because `false?.x` and `true?.x` are undefined
  and fall back to 1. So the 0.2 half extent stands either way.
- In `Pistol.update` the branch for an unset `prevRotationY` is dead. The
  field is typed `number`, starts at 0 and is always reassigned a number.
  The model's `prevRotationY` is therefore a plain `real` and the branch is
  absent.

Two points about `update` in the movement controller:

- the clamp runs *before* integration. The room bounds hold where the
  velocity is added, not when `update` returns
  (`UpdateCanEndOutsideArena` gives a rig that ends an update outside the
  room).
- the lerp toward the target runs once per call whatever the frame time.
  So `update(0)` can still change the velocity: a velocity that is not at
  its target moves toward it (`ZeroStepStillSmoothsVelocity`). The position
  becomes the start position clamped to the room, so a rig inside the room
  stays where it is and one outside it is moved to the wall.

## Model

| member | source | states |
|---|---|---|
| `ThreeMath.Clamp` | src/systems/ControlsWithMovement.ts:78-88 | `MathUtils.clamp` lands in [min, max] when min <= max, returns an in-range value unchanged, and returns the bound a value lies beyond |
| `ThreeMath.ClampIdempotent` | src/systems/Controls.ts:36-39 | clamping a clamped value changes nothing |
| `Look.ClampPitch` | src/systems/Controls.ts:36-39 | the pitch ends in [-pi/2, pi/2]; an in-range pitch is kept; out-of-range pitches go to the nearer bound |
| `Look.ClampPitchIdempotent` | src/systems/Controls.ts:36-39 | re-clamping a clamped pitch yields the same pitch |
| `Look.Turn` | src/systems/Controls.ts:27-41 | unlocked: orientation unchanged; locked: yaw decreases by movementX times sensitivity and the pitch ends in range; an in-range pitch stays in range; a zero movement leaves an in-range orientation unchanged |
| `Look.ReplayKeepsPitchInRange` | src/systems/Controls.ts:33-39 | over any sequence of events, an in-range pitch stays in range |
| `Look.ReplayYaw` | src/systems/Controls.ts:32 | yaw is unbounded: after any events it has moved by exactly minus sensitivity times the locked movementX total |
| `Look.ReplayYawChange` | src/systems/Controls.ts:32 | after any events the yaw has dropped by exactly the sum of the locked events' scaled movements |
| `Look.YawChangeIsScaled` | src/systems/Controls.ts:32 | summing the scaled movements equals scaling the summed movement |
| `Look.ReplayUnlockedIsIdentity` | src/systems/Controls.ts:28 | events while the pointer is not locked change neither yaw nor pitch |
| `Controls.Controls.constructor` | src/systems/Controls.ts:8-20 | a fresh rig has yaw and pitch 0 and sensitivity 0.001, and satisfies the pitch invariant |
| `Controls.Controls.OnMouseMove` | src/systems/Controls.ts:27-41 | the new yaw and pitch are `Turn` of the old ones; the pitch invariant is kept |
| `Controls.Controls.Update` | src/systems/Controls.ts:52-54 | the per-frame update changes no state |
| `ControlsWithMovement.ToLower` | src/systems/ControlsWithMovement.ts:44 | the result is as long as the key, has no upper-case ASCII letter, keeps every other character and lowers each upper-case one |
| `ControlsWithMovement.ToLowerIdempotent` | src/systems/ControlsWithMovement.ts:44-48 | lower-casing twice equals lower-casing once |
| `ControlsWithMovement.MoveKeysIgnoreCase` | src/systems/ControlsWithMovement.ts:44-48 | "W", "A", "S", "D" are recorded under the same entries as "w", "a", "s", "d" |
| `ControlsWithMovement.WithKey` | src/systems/ControlsWithMovement.ts:43-49 | the lower-cased key maps to the new flag, the key set grows by at most that key, and every other entry keeps its value |
| `ControlsWithMovement.ReleaseAfterPress` | src/systems/ControlsWithMovement.ts:43-49 | a keyup of the same key in either case leaves it not held and every other key as it was |
| `ControlsWithMovement.TargetDirection` | src/systems/ControlsWithMovement.ts:74-77 | y is 0; x is 1, -1 or 0 exactly when only W, only S, or both/neither are held; z likewise for D and A, so opposing keys cancel |
| `ControlsWithMovement.ClampToArena` | src/systems/ControlsWithMovement.ts:78-88 | the clamped position is inside x in [-6.2, 8.2], z in [-7.3, 7.3] with y untouched; an in-bounds position is unchanged |
| `ControlsWithMovement.Smooth` | src/systems/ControlsWithMovement.ts:93-98 | with a zero target and decay in (0, 1] a velocity component never grows; zero stays zero; a velocity at its target with no decay is kept |
| `ControlsWithMovement.VelocityStep` | src/systems/ControlsWithMovement.ts:93-98 | a level velocity moving toward a level target stays level; toward a zero target with decay in (0, 1] no component's magnitude grows; a velocity already at its target is kept when decay is 1 |
| `ControlsWithMovement.Locomotion` | src/systems/ControlsWithMovement.ts:71-101 | the position where the velocity is added is the clamped start, inside the room; zero vertical velocity stays zero and the height is unchanged; a zero step leaves the clamped position; with no keys and decay in (0, 1] no velocity component grows |
| `ControlsWithMovement.RunStaysPlanar` | src/systems/ControlsWithMovement.ts:92-100 | over any frames, a rig starting with no vertical velocity keeps none and never changes height |
| `ControlsWithMovement.IdleRunNeverSpeedsUp` | src/systems/ControlsWithMovement.ts:93-98 | over frames with no movement key and deltaTime >= 0, no velocity component's magnitude increases |
| `ControlsWithMovement.ZeroStepStillSmoothsVelocity` | src/systems/ControlsWithMovement.ts:93-100 | with no movement key held, a zero step still scales every rig's velocity by 1 - 0.002 |
| `ControlsWithMovement.UpdateCanEndOutsideArena` | src/systems/ControlsWithMovement.ts:78-100 | with no movement key held, a rig at or beyond the x wall moving outward ends a forward step outside the room |
| `ControlsWithMovement.Controls.constructor` | src/systems/ControlsWithMovement.ts:7-17 | no keys held, zero rotations, position and velocity, sensitivity 0.0002; invariant holds |
| `ControlsWithMovement.Controls.OnKeyDown` | src/systems/ControlsWithMovement.ts:43-45 | the held-key record becomes `WithKey(old, key, true)`; nothing else changes |
| `ControlsWithMovement.Controls.OnKeyUp` | src/systems/ControlsWithMovement.ts:47-49 | the held-key record becomes `WithKey(old, key, false)`; nothing else changes |
| `ControlsWithMovement.Controls.OnMouseMove` | src/systems/ControlsWithMovement.ts:53-66 | yaw and pitch become `Turn` of the old ones; pitch stays in range |
| `ControlsWithMovement.Controls.Update` | src/systems/ControlsWithMovement.ts:71-101 | position and velocity become `Locomotion` of the old ones; keys and orientation are untouched; vertical velocity stays 0 |
| `RandomCubeGenerator.BoxOf` | src/objects/RandomCubeGenerator.ts:29-32 | a cube's box is centred on its position with side twice its half extent on every axis |
| `RandomCubeGenerator.CubeBoxesMeetIff` | src/objects/RandomCubeGenerator.ts:33 | `IntersectsBox` on two cubes' boxes holds exactly when, on each axis, their centres are at most the sum of their half extents apart |
| `RandomCubeGenerator.IntersectsBoxSymmetric` | src/objects/RandomCubeGenerator.ts:33 | box intersection does not depend on argument order |
| `RandomCubeGenerator.CollidesIffSomeTarget` | src/objects/RandomCubeGenerator.ts:31-34 | `Collides`, the `some` test, holds exactly when some existing target's box intersects the candidate's |
| `RandomCubeGenerator.Candidate` | src/objects/RandomCubeGenerator.ts:21-27 | a candidate has half extent 0.2 and the given flags; for draws in [0, 1) it lies in x in (4, 6], y in [-1.5, 1.5), z in [-2.7, 3.1) |
| `RandomCubeGenerator.FirstFree` | src/objects/RandomCubeGenerator.ts:16-40 | the accepted attempt is at most 50; if below 50 its candidate collides with nothing, and every earlier candidate collides |
| `RandomCubeGenerator.PlacementIsFirstFree` | src/objects/RandomCubeGenerator.ts:31-36 | a placed cube is the candidate of the first attempt that collides with nothing |
| `RandomCubeGenerator.PlacementNoneIffAllCollide` | src/objects/RandomCubeGenerator.ts:38-47 | nothing is placed exactly when all 50 candidates collide |
| `RandomCubeGenerator.PlacedTouchesNoTarget` | src/objects/RandomCubeGenerator.ts:29-44 | a placed cube's box intersects the box of none of the targets present before the call |
| `RandomCubeGenerator.EmptyTargetsKeepFirst` | src/objects/RandomCubeGenerator.ts:31-36 | with no targets the first candidate is placed |
| `RandomCubeGenerator.PlacementInSpawnBox` | src/objects/RandomCubeGenerator.ts:24-26 | for draws in [0, 1) a placed cube lies in x in (4, 6], y in [-1.5, 1.5), z in [-2.7, 3.1) |
| `RandomCubeGenerator.RandomCubeGenerator.constructor` | src/objects/RandomCubeGenerator.ts:9-13 | the generator holds the given targets and colour flag |
| `RandomCubeGenerator.RandomCubeGenerator.Generate` | src/objects/RandomCubeGenerator.ts:15-48 | the target list gains exactly the placed cube at the end, or stays the same; a ghost count shows at most 150 draws (50 attempts) are used, three per attempt up to and including the accepted one |
| `Pistol.Sway` | src/objects/Pistol.ts:54-67 | a zero step leaves x; for 0 <= 10 delta <= 1 the new x lies between the old x and the offset 5 times the yaw change; at 10 delta = 1 it reaches the offset |
| `Pistol.StepWithin` | src/objects/Pistol.ts:66 | a step of fraction in [0, 1] from a toward b stays between a and b |
| `Pistol.StillCameraStep` | src/objects/Pistol.ts:58-66 | with an unchanged yaw the offset is 0 and x is scaled by 1 - 10 delta |
| `Pistol.SettleIsGeometric` | src/objects/Pistol.ts:58-69 | after n frames with the yaw held still, x is the start x times (1 - 10 delta)^n |
| `Pistol.SettleNeverGrows` | src/objects/Pistol.ts:58-69 | with 0 <= 10 delta <= 1 and the yaw held still, the pistol's offset never moves away from 0 |
| `Pistol.Pistol.constructor` | src/objects/Pistol.ts:14-17 | a new pistol remembers yaw 0 and sits at the origin before its model loads |
| `Pistol.Pistol.Update` | src/objects/Pistol.ts:54-70 | only position.x changes, to `Sway` of the old x; `prevRotationY` becomes the camera yaw passed in |

## Left out

- Floating point: numbers are unbounded reals, so there is no rounding, NaN or infinity. `|| 0` is modelled only for missing movement fields.
- `Vector3.normalize`, `applyQuaternion` and `Math.pow` are parameters constrained only by the facts listed above. No square root, trigonometry or exponentiation is modelled.
- `String.prototype.toLowerCase` is modelled for ASCII letters only; Unicode case mapping is not.
- The sensitivity slider (src/systems/ControlsWithMovement.ts:22-29) is not modelled. The movement controller keeps `sensitivity` as a field that no method changes, and no proof depends on its value.
- Event wiring is not modelled: `addEventListener`, `initPointerLock` registering the handler, and the click handler that calls `requestPointerLock` (src/systems/Controls.ts:45-49). The handlers are methods that receive the event fields and a `locked` flag. Installing a handler twice is not modelled.
- The `object` getters and the camera/pitch/yaw parenting in the constructors are scene-graph plumbing.
- `scene.add` and `console.warn` in `generate` are side effects outside the target list and are omitted.
- The target list is a sequence field. Sharing the caller's array, which the constructor aliases, is not modelled.
- `Box3.setFromObject` is modelled for axis-aligned cubes (position plus or minus half extent); rotated targets are not.
- The second `Cube` constructor argument (`true`) is not modelled.
- Default arguments are not modelled: the constructor's `randomColors` (default `false`, src/objects/RandomCubeGenerator.ts:9) and `generate`'s `shootable` (default `false`, :15) are always passed explicitly.
- `RandomCubeGenerator.RandomCubeGenerator.Generate`: it requires 150 draws to be supplied, so that every attempt the loop may make has its three numbers; `Math.random` itself never runs out.
- The pistol's GLTF loading, its outline meshes and the position, rotation and scale set when the model loads (src/objects/Pistol.ts:18-52) are asset handling.
- The renderer, camera, render loop, shaders, outline pass, start screen, textures, lights, crosshair and clock are library configuration and are not part of this model.
