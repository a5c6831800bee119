# Moon walker control logic in Dafny

This project models the discrete control logic of the first-person walker in
the 3D moon scene (`src/components/MoonScene.jsx`). The scene can be viewed
from an orbiting camera or entered as a walking avatar. In Walk mode, each
rendered frame does the following:

- it damps the horizontal velocity and accelerates it toward the keyboard or
  joystick intent;
- it clamps each axis to the walking speed;
- it applies moon gravity while the avatar is airborne;
- it probes the terrain below with a ray and decides whether to land, stay
  airborne or follow the terrain;
- it stops any rise above a ceiling.

Key handlers and a mobile jump button request jumps. These are honoured only
on the ground. A fallback chain picks the moon's colour map: a procedural
texture first, then the first external image that loads. A toggle switches
between Orbit and Walk and tells the hosting shell the new mode.

Layout:

- `locomotion.dfy`, module `Locomotion`, holds the pure model.
  - The avatar's state is one value, `Avatar`: the four direction flags, the
    jump-in-progress flag, horizontal velocity `vx`/`vz`, `verticalVelocity`
    and `isGrounded`.
  - Each step is a function over it: `Horizontal`, `Gravity`, `Ground`,
    `Ceiling`, `Tick`, `KeyDown`, `KeyUp`, `RequestJump` and `JoystickIntent`.
  - `Run` replays any sequence of input events and frames.
  - `Valid` is the invariant every reachable state keeps. It requires:
    - each horizontal axis within `MoveSpeed`;
    - vertical velocity never above `JumpSpeed`;
    - vertical velocity zero while grounded;
    - a jump in progress only while airborne.
  - The lemmas prove the properties below.
- `walker.dfy`, class `Walking.Walker`, models the mutable state that the
  frame loop and the event handlers update in place. Each method updates
  fields step by step. Every method keeps `Valid` (`ResetForWalk` and the
  constructor establish it), and each is proved equal to its pure step:
  `Animate` to `Tick`, `Steer` to `Horizontal`, `ApplyGravity` to `Gravity`,
  `GroundAgainst` to `Ground`, `OnKeyDown` to `KeyDown`, `OnKeyUp` to
  `KeyUp`, `HandleJump` to `RequestJump`, and `UpdateJoystick` (with its
  guarded callers `StartJoystick` and `MoveJoystick`) to `JoystickIntent`.
- `texture.dfy`, module `SurfaceMaterial`, models `tryLoadTexture`.
  - It is a recursive method over the class `TextureFallback`: the colour
    map, `textureLoaded`, and the log of URLs requested from the loader.
  - It is specified through `FirstSuccess`.
- `mode.dfy`, module `ModeControl`, models `toggleMode` and the shell's copy
  of the mode.

Geometry is abstract. The grounding ray's nearest hit is an input
`Option<Hit>`, where a `Hit` has a distance, a point and a surface normal.
The camera's distance from the moon's centre after the frame's motion is also
an input. A frame returns two things for the rendering engine to apply:

- the camera-relative moves: `moveRight(-vx)`, `moveForward(-vz)`, and the
  radial offset by the vertical velocity;
- a position `Correction`: no correction, a blend toward eye height above the
  hit at rate 0.5 or 0.4, or a blend toward the ideal sphere at radius
  500 + 1.7.

Numbers are Dafny `real`s. The constants are the source's: radius 500, walk
speed 0.2, eye height 1.7, jump speed 0.4, gravity 0.01, maximum jump height
15, damping 10%, acceleration `0.2 * 0.1`, slack 0.5, joystick dead-zone 10.
The normalised diagonal direction component is the double
0.7071067811865475 that `normalize()` yields.

Desktop and mobile keep separate state objects in the source:
`moveState`/`jumpState`, and `mobileMoveState`/`mobileJumpState`. Only the
one for the detected device is live, and both are reset to the same values.
The "jump in progress" flag is `moveState.jump` on desktop and `jumping` on
mobile, and both play the same role. So one `Avatar` stands for whichever
set is active.

## Model

| member | source | states |
|---|---|---|
| `Locomotion.Direction` | src/components/MoonScene.jsx:1024-1027 | The normalised intent direction. Its x component is positive exactly when only right is held and negative exactly when only left is held; z works the same way for forward and backward. Both components lie in [-1, 1]. |
| `Locomotion.DirectionIsUnit` | src/components/MoonScene.jsx:1027 | The direction's squared length is exactly 1 along a single axis and exactly 2 × 0.7071067811865475² on a diagonal, which lies strictly between 0.9999999999999999 and 1. It is zero exactly when the held keys cancel out. |
| `Locomotion.Clamp` | src/components/MoonScene.jsx:1039-1041 | The clamp's result lies in [-MoveSpeed, MoveSpeed]. It equals its input exactly when the input is already in range. Out-of-range input saturates to the nearer bound. |
| `Locomotion.AxisStep` | src/components/MoonScene.jsx:1020-1041 | One axis after damping, acceleration and clamp is within the walking speed, whatever the previous velocity and intent. |
| `Locomotion.Horizontal` | src/components/MoonScene.jsx:1019-1041 | The horizontal step changes only `vx` and `vz`, and leaves both within MoveSpeed. |
| `Locomotion.ClampNeverBinds` | src/components/MoonScene.jsx:1020-1041 | From a speed within MoveSpeed, the clamp is the identity: 10% damping plus an acceleration of at most 0.02 cannot exceed 0.2. |
| `Locomotion.HoldingForwardApproachesMax` | src/components/MoonScene.jsx:1020-1041 | Holding forward from rest, or from any slower forward speed, raises the speed on every frame. The speed never reaches MoveSpeed. |
| `Locomotion.SustainedForward` | src/components/MoonScene.jsx:1019-1041 | Over any run of steering frames with only W held, `vz` follows the one-axis iteration exactly. So from rest the forward speed grows on every frame and stays below MoveSpeed, with the clamp never engaged. |
| `Locomotion.JoystickIntent` | src/components/MoonScene.jsx:1333-1337 | Forward and backward are never both set, and neither are left and right. All four flags are clear exactly when both offsets lie inside the dead-zone [-10, 10]. |
| `Locomotion.JoystickSteers` | src/components/MoonScene.jsx:1333-1337 | The joystick drives the direction as pushed. Forward is positive exactly when y < -10, backward exactly when y > 10, right exactly when x > 10, and left exactly when x < -10. The centred stick is idle. |
| `Locomotion.JumpOnlyFromGround` | src/components/MoonScene.jsx:947-952 | A jump request changes the state exactly when the avatar is grounded with no jump in progress. It then sets the jump flag and vertical velocity 0.4, and clears grounded; nothing else changes. From a valid state the gate reduces to "grounded". |
| `Locomotion.KeysTouchOnlyTheirFlag` | src/components/MoonScene.jsx:941-965 | W/S/A/D down and up set or clear exactly the matching flag and leave everything else unchanged. Space up clears only the jump flag. Space down is the gated jump request. |
| `Locomotion.ReleaseUndoesPress` | src/components/MoonScene.jsx:941-965 | Releasing a movement key after pressing it gives the same state as releasing it alone. A movement key never touches the jump state. |
| `Locomotion.OtherKeysIgnored` | src/components/MoonScene.jsx:942-964 | Codes other than KeyW, KeyS, KeyA, KeyD and Space change nothing, on key down or key up. |
| `Locomotion.KeyDown` | src/components/MoonScene.jsx:941-955 | A key press never changes the horizontal velocity. It sets exactly the flag of its movement key and keeps every other flag. Any code other than Space leaves the jump state alone. Whole-state cases: `KeysTouchOnlyTheirFlag`, `OtherKeysIgnored`. |
| `Locomotion.KeyUp` | src/components/MoonScene.jsx:957-965 | A key release clears exactly the flag of its code (Space clears the jump flag) and changes nothing else. Pairing with press: `ReleaseUndoesPress`. |
| `Locomotion.RequestJump` | src/components/MoonScene.jsx:947-952 | A jump request either changes nothing or, from the ground with no jump in progress, launches the avatar: jump flag set, vertical velocity 0.4, airborne. The if-and-only-if is `JumpOnlyFromGround`. |
| `Locomotion.Gravity` | src/components/MoonScene.jsx:1062-1064 | Gravity changes only the vertical velocity. It leaves a grounded avatar unchanged and strictly lowers an airborne one's. Exact amount: `GravityStep`. |
| `Locomotion.Ground` | src/components/MoonScene.jsx:1093-1135 | The grounding decision either keeps the avatar or lands it (grounded, velocity 0, jump cleared). A correction is requested exactly when the avatar ends grounded. An airborne avatar lands only on a hit while not rising. Branches: `CloseHitLands`, `AirborneKeepsCourse`, `FollowOnlyBeyondSlack`, `NoHitFallsBackToSphere`. |
| `Locomotion.Ceiling` | src/components/MoonScene.jsx:1137-1141 | The ceiling changes only the vertical velocity: it is kept or set to 0, so it never rises above max(velocity, 0). Threshold: `CeilingStopsRise`. |
| `Locomotion.Tick` | src/components/MoonScene.jsx:1019-1141 | A frame keeps the intent. It asks for a correction exactly when the avatar ends grounded. When steering, the camera moves by the negated new velocity; otherwise horizontal velocity and moves are unchanged and zero. A grounded avatar has no radial move. Invariant: `TickPreservesValid`. |
| `Locomotion.Apply` | src/components/MoonScene.jsx:941-965 | Dispatches one key, stick, jump-button or frame event. Only a frame changes the horizontal velocity. A release or stick event leaves the vertical state alone. Invariant: `ApplyPreservesValid`. |
| `Locomotion.Run` | src/components/MoonScene.jsx:1014-1141 | Applies events in order. A run without frames never changes the horizontal velocity. Invariant: `RunPreservesValid`. |
| `Locomotion.GravityStep` | src/components/MoonScene.jsx:1062-1064 | An airborne avatar loses exactly 0.01 of vertical velocity. A grounded one is unchanged. Gravity never changes grounded or the horizontal velocity. |
| `Locomotion.FreeFall` | src/components/MoonScene.jsx:1062-1141 | Over n frames with no hit, or a hit beyond the slack, below the ceiling, an airborne avatar stays airborne. Its vertical velocity drops by exactly n × 0.01. |
| `Locomotion.CloseHitLands` | src/components/MoonScene.jsx:1093-1120 | A hit within eye height + 0.5 while not rising after gravity lands the avatar: grounded, vertical velocity 0, jump flag cleared. It also blends at rate 0.5 toward eye height above the hit along its normal. |
| `Locomotion.AirborneKeepsCourse` | src/components/MoonScene.jsx:1059-1124 | An airborne avatar that does not land gets no correction and stays airborne. Its radial move is its vertical velocity after gravity. |
| `Locomotion.NoHitFallsBackToSphere` | src/components/MoonScene.jsx:1128-1135 | With no hit, a correction happens exactly when the avatar is grounded. It is a 0.4 blend toward radius 500 + 1.7. Grounded is unchanged. |
| `Locomotion.FollowOnlyBeyondSlack` | src/components/MoonScene.jsx:1109-1128 | From a valid state, the 0.4 terrain-follow blend is chosen exactly when the avatar is grounded and the hit is beyond eye height + 0.5. A grounded avatar closer than that takes the 0.5 landing branch. |
| `Locomotion.CeilingStopsRise` | src/components/MoonScene.jsx:1137-1141 | Beyond radius + 15 the frame ends with vertical velocity 0. Below it the ceiling changes nothing. |
| `Locomotion.TickPreservesValid` | src/components/MoonScene.jsx:1019-1141 | A Walk-mode frame keeps `Valid`. |
| `Locomotion.ApplyPreservesValid` | src/components/MoonScene.jsx:941-965 | Every key, joystick, jump-button and frame event keeps `Valid`. |
| `Locomotion.RunPreservesValid` | src/components/MoonScene.jsx:1019-1141 | Any sequence of events from a valid state ends in a valid state. |
| `Locomotion.SpeedBoundedAfterWalkEntry` | src/components/MoonScene.jsx:798-811 | After entering Walk mode, whatever input and frames follow, each horizontal axis stays within MoveSpeed. A grounded avatar has zero vertical velocity. |
| `Locomotion.WalkEntryPoseOnSurface` | src/components/MoonScene.jsx:793-797 | The entry pose is eye height above the ideal sphere, faces a unit tangent, and lies below the ceiling. The reset state is valid. |
| `Walking.Walker.constructor` | src/components/MoonScene.jsx:63-65 | The walker starts at rest on the ground with no key held. It also starts with no joystick touch, as `useRef(false)` at line 1269 does. |
| `Walking.Walker.ResetForWalk` | src/components/MoonScene.jsx:792-811 | Entering Walk mode sets the camera to (0, 501.7, 0) facing +Z. It zeroes the velocities, sets grounded and clears all five movement flags. |
| `Walking.Walker.OnKeyDown` | src/components/MoonScene.jsx:941-955 | The key-down handler updates the fields as `KeyDown` specifies and keeps `Valid`. |
| `Walking.Walker.OnKeyUp` | src/components/MoonScene.jsx:957-965 | The key-up handler updates the fields as `KeyUp` specifies and keeps `Valid`. |
| `Walking.Walker.HandleJump` | src/components/MoonScene.jsx:1341-1347 | The mobile jump button is ignored unless the device is mobile in Walk mode. Otherwise it is the gated jump request, and it keeps `Valid`. |
| `Walking.Walker.UpdateJoystick` | src/components/MoonScene.jsx:1315-1338 | The shared, unguarded update sets the four direction flags to `JoystickIntent` of the offset. Nothing else changes. |
| `Walking.Walker.StartJoystick` | src/components/MoonScene.jsx:1271-1283 | A touch on mobile in Walk mode marks the joystick active and sets the flags from the offset. Otherwise nothing changes. |
| `Walking.Walker.MoveJoystick` | src/components/MoonScene.jsx:1285-1297 | A drag sets the flags from the offset only on mobile in Walk mode with a touch active. Otherwise nothing changes. The active flag is kept. |
| `Walking.Walker.EndJoystick` | src/components/MoonScene.jsx:1299-1313 | Releasing the joystick on mobile in Walk mode ends the touch and clears the four direction flags. Otherwise it changes nothing. |
| `Walking.Walker.Animate` | src/components/MoonScene.jsx:1014-1141 | One frame updates the fields as `Tick` specifies, returns the moves and the correction, and keeps `Valid`. |
| `Walking.Walker.Steer` | src/components/MoonScene.jsx:1019-1041 | The horizontal step on the fields equals `Horizontal`. |
| `Walking.Walker.ApplyGravity` | src/components/MoonScene.jsx:1062-1064 | Gravity on the fields equals `Gravity`. |
| `Walking.Walker.GroundAgainst` | src/components/MoonScene.jsx:1093-1135 | The grounding decision on the fields equals `Ground`, with the same correction. |
| `SurfaceMaterial.FirstSuccess` | src/components/MoonScene.jsx:577-603 | Returns the first successful source at or after the start index, with every source before it failed. It returns none exactly when every remaining source fails. |
| `SurfaceMaterial.TextureFallback.constructor` | src/components/MoonScene.jsx:558-576 | The material starts with the procedural colour map and no external texture loaded. |
| `SurfaceMaterial.TextureFallback.TryLoadTexture` | src/components/MoonScene.jsx:577-603 | Once the index reaches the end or a texture has loaded, nothing changes. Otherwise sources are requested one by one, each failure moving to the next index. The first success sets the map to that image and sets `textureLoaded`. If all fail, the map is untouched. |
| `SurfaceMaterial.LoadMoonTexture` | src/components/MoonScene.jsx:552-606 | The map is always the procedural texture or one of the three listed images, never missing. A texture has loaded exactly when some source succeeded. Then the map is the first successful source's image, and exactly the sources up to it were requested. If every source fails, the map is the procedural texture and all three were requested. |
| `ModeControl.ModeController.constructor` | src/components/MoonScene.jsx:8 | A scene starts in Orbit mode, in sync with the shell. |
| `ModeControl.ModeController.ToggleMode` | src/components/MoonScene.jsx:1252-1257 | The mode flips, and the new mode is sent to the shell if it listens. The shell's copy stays in sync with the scene's mode. |
| `ModeControl.ToggleTwice` | src/App.jsx:6-10 | Entering Walk mode and leaving it restores the mode. The shell hears both changes, in order, and stays in sync. |

## Left out

- Rendering, scene construction, shaders, stars, nebula and lighting are not modelled: they are graphics output with nothing to state.
- Procedural texture painting is not modelled; it is canvas drawing driven by `Math.random`. The procedural map is the opaque value `Procedural`.
- Mesh deformation, crater/mountain/hill generation and terrain placement are not modelled. They are trigonometry and random sampling over the engine's geometry buffers.
- Raycasting, quaternion/Euler camera orientation, `lerp` and the pointer-lock `moveRight`/`moveForward` belong to the 3D engine:
  - the ray's nearest hit is an input of a frame;
  - the camera's distance from the centre after the frame's motion is an input of a frame;
  - a frame returns the moves and the blend target and rate, and does not move a camera.
- The joystick's radius clamp (lines 1316-1323) uses `atan2`/`cos`/`sin`. It is not modelled. `JoystickIntent` takes the already-clamped offset.
- Floating point is not modelled: numbers are exact reals. For example, `0.2 * 0.1` is 0.02 here rather than the double 0.020000000000000004.
- Locomotion.Direction: the diagonal component is the double's decimal value, so a diagonal direction has length just under 1 rather than exactly 1.
- The joystick handlers' DOM checks are not modelled: `preventDefault`, the presence of the joystick element (`if (rect)`, lines 1276 and 1290), the knob's CSS transform, and `window.mobileMoveState` being set. The offsets are inputs.
- `velocity.y` is set to 0 on reset and never read. It is not modelled.
- The separate desktop and mobile state objects are modelled as one avatar state, because only the one for the detected device is live. Their creation per device (lines 800-826) is not modelled.
- `SurfaceMaterial.TextureFallback.TryLoadTexture` does not model timing: the loader's callbacks arrive asynchronously in the source. The chain is modelled as synchronous recursion, given the loader's answer for each source.
  - Only the colour map is modelled. The normal and roughness maps are reassigned to the same procedural maps and are left out.
- `ModeControl.ModeController.ToggleMode` does not model React's deferred state update, nor the scene rebuild that follows it. The whole scene effect (lines 27-1250) depends on `[isFirstPerson, isMobile]`, so every toggle runs its cleanup (lines 1210-1249) and builds everything again. That means a new scene and moon, and new `moveState`/`velocity`/`jumpState` objects (lines 63-65). It also restarts `tryLoadTexture()` from the procedural map (lines 571 and 606), so the colour map goes back to procedural and the URLs are requested again. The Walk branch (lines 1166-1182) and the Orbit branch (lines 1184-1208) then set up their controls and terrain visibility. The model keeps one `Walker` and one `TextureFallback` for the whole session instead. A new Walk session is represented by the state reset to `WalkEntry` (`Walker.ResetForWalk`, and `SpeedBoundedAfterWalkEntry` for everything that follows), which stands for the freshly built state. A rebuilt material is represented by a fresh `LoadMoonTexture`.
- Click-to-enter and click-on-sky-to-leave detection, mobile look gestures, device detection, resize handling and the JSX interface are not modelled. They are framework and I/O plumbing.
- `src/App.jsx` is modelled only as the stored copy of the mode (`ShellInSync`). Its help text is not modelled.
