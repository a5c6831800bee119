/** The optional value used for the grounding ray's nearest hit. */
module Optional {
  datatype Option<+T> = None | Some(value: T)
}

/**
 * The discrete control logic of the first-person walker on the moon:
 * the avatar's intent flags, horizontal velocity and jump state as one value,
 * the per-frame integrator (damping, acceleration, clamp, moon gravity,
 * grounding decision, ceiling clamp) and the input handlers, all as pure
 * functions over that value. Camera geometry is left abstract: the grounding
 * ray's nearest hit and the camera's distance from the moon's centre are inputs
 * of a frame, and a frame yields the displacement and position correction the
 * rendering engine is asked to apply.
 */
module Locomotion {
  import opened Optional

  // Tuning constants of the walker.
  const MoonRadius: real := 500.0
  const MoveSpeed: real := 0.2
  const EyeHeight: real := 1.7
  const JumpSpeed: real := 0.4
  const MoonGravity: real := 0.01
  const MaxJumpHeight: real := 15.0

  /** Velocity gained per frame along an axis with intent. */
  const Acceleration: real := MoveSpeed * 0.1
  /** Extra distance beyond eye height within which a hit counts as ground contact. */
  const GroundSlack: real := 0.5
  const LandingBlend: real := 0.5
  const FollowBlend: real := 0.4
  /** Dead-zone of the virtual joystick, in pixels from its centre. */
  const JoystickThreshold: real := 10.0
  /** Each component of a normalised diagonal direction: 1/sqrt(2) as the double the engine computes. */
  const Diagonal: real := 0.7071067811865475

  datatype Vec3 = Vec3(x: real, y: real, z: real)

  /** The camera's position and the unit direction it looks along. */
  datatype Pose = Pose(position: Vec3, facing: Vec3)

  /** The four directional movement flags, as either input adapter writes them. */
  datatype Intent = Intent(forward: bool, backward: bool, left: bool, right: bool)

  const Idle: Intent := Intent(false, false, false, false)

  /**
   * Everything the walker's control logic keeps between frames: the movement
   * flags and the jump-in-progress flag, the horizontal velocity (camera-local
   * x and z) and the radial jump state.
   */
  datatype Avatar = Avatar(
    intent: Intent,
    jump: bool,
    vx: real,
    vz: real,
    verticalVelocity: real,
    isGrounded: bool)

  /** Standing still on the ground with no key held: the state declared at start-up and restored on entering Walk mode. */
  const WalkEntry: Avatar := Avatar(Idle, false, 0.0, 0.0, 0.0, true)

  /** Where the camera is put on entering Walk mode: eye height above the north pole, looking along +Z. */
  const WalkEntryPose: Pose := Pose(Vec3(0.0, MoonRadius + EyeHeight, 0.0), Vec3(0.0, 0.0, 1.0))

  /**
   * What every reachable avatar state satisfies: horizontal speed within
   * MoveSpeed per axis, never rising faster than a jump, at rest vertically
   * while grounded, and a jump in progress only while airborne.
   */
  predicate Valid(a: Avatar) {
    && -MoveSpeed <= a.vx <= MoveSpeed
    && -MoveSpeed <= a.vz <= MoveSpeed
    && a.verticalVelocity <= JumpSpeed
    && (a.isGrounded ==> a.verticalVelocity == 0.0)
    && (a.jump ==> !a.isGrounded)
  }

  function Dot(u: Vec3, v: Vec3): real {
    u.x * v.x + u.y * v.y + u.z * v.z
  }

  // ---------------------------------------------------------------------------
  // Horizontal integrator

  /** `Number(pos) - Number(neg)`. */
  function Net(pos: bool, neg: bool): int {
    (if pos then 1 else 0) - (if neg then 1 else 0)
  }

  /**
   * The intent direction after `normalize()`: x is right minus left, z is
   * forward minus backward, scaled to unit length (a zero vector stays zero).
   */
  function Direction(i: Intent): (d: (real, real))
    ensures (d.0 > 0.0 <==> i.right && !i.left) && (d.0 < 0.0 <==> i.left && !i.right)
    ensures (d.1 > 0.0 <==> i.forward && !i.backward) && (d.1 < 0.0 <==> i.backward && !i.forward)
    ensures -1.0 <= d.0 <= 1.0 && -1.0 <= d.1 <= 1.0
  {
    var x := Net(i.right, i.left) as real;
    var z := Net(i.forward, i.backward) as real;
    if x != 0.0 && z != 0.0 then (x * Diagonal, z * Diagonal) else (x, z)
  }

  /**
   * The squared length of the direction: exactly 1 along a single axis,
   * exactly 2 * Diagonal^2 on a diagonal (just under 1, by the rounding of the
   * double), and 0 when the held keys cancel out.
   */
  lemma DirectionIsUnit(i: Intent)
    ensures var d := Direction(i); var sq := d.0 * d.0 + d.1 * d.1;
      && (Net(i.right, i.left) != 0 && Net(i.forward, i.backward) != 0 ==> sq == 2.0 * Diagonal * Diagonal)
      && ((Net(i.right, i.left) == 0) != (Net(i.forward, i.backward) == 0) ==> sq == 1.0)
      && (Net(i.right, i.left) == 0 && Net(i.forward, i.backward) == 0 <==> d == (0.0, 0.0))
    ensures 0.9999999999999999 < 2.0 * Diagonal * Diagonal < 1.0
  {
  }

  function Min(a: real, b: real): real { if a <= b then a else b }
  function Max(a: real, b: real): real { if a >= b then a else b }

  /** `Math.max(-maxSpeed, Math.min(maxSpeed, v))`: the nearest speed within the walking limit. */
  function Clamp(v: real): (r: real)
    ensures -MoveSpeed <= r <= MoveSpeed
    ensures r == v <==> -MoveSpeed <= v <= MoveSpeed
    ensures v > MoveSpeed ==> r == MoveSpeed
    ensures v < -MoveSpeed ==> r == -MoveSpeed
  {
    Max(-MoveSpeed, Min(MoveSpeed, v))
  }

  /**
   * One velocity axis for one frame: lose 10%, then, when that axis has any
   * intent, accelerate against direction component `d`, then clamp.
   */
  function AxisStep(v: real, active: bool, d: real): (r: real)
    ensures -MoveSpeed <= r <= MoveSpeed
  {
    var damped := v - v * 0.1;
    Clamp(if active then damped - d * Acceleration else damped)
  }

  /** The horizontal part of a frame: both axes stepped, nothing else touched. */
  function Horizontal(a: Avatar): (b: Avatar)
    ensures b == a.(vx := b.vx, vz := b.vz)
    ensures -MoveSpeed <= b.vx <= MoveSpeed && -MoveSpeed <= b.vz <= MoveSpeed
  {
    var d := Direction(a.intent);
    a.(vz := AxisStep(a.vz, a.intent.forward || a.intent.backward, d.1),
       vx := AxisStep(a.vx, a.intent.left || a.intent.right, d.0))
  }

  // ---------------------------------------------------------------------------
  // Vertical dynamics, grounding and ceiling

  /** Moon gravity: only an airborne avatar loses MoonGravity of vertical velocity. */
  function Gravity(a: Avatar): (b: Avatar)
    ensures b == a.(verticalVelocity := b.verticalVelocity)
    ensures a.isGrounded ==> b == a
    ensures !a.isGrounded ==> b.verticalVelocity < a.verticalVelocity
  {
    if !a.isGrounded then a.(verticalVelocity := a.verticalVelocity - MoonGravity) else a
  }

  /** The nearest intersection of the grounding ray with the moon or a terrain feature. */
  datatype Hit = Hit(distance: real, point: Vec3, normal: Vec3)

  /** The position correction a frame asks of the engine. */
  datatype Correction =
    | Keep                                         // leave the camera where vertical motion put it
    | BlendToward(target: Vec3, rate: real)        // lerp toward a point on the terrain
    | BlendToSphere(distance: real, rate: real)    // lerp toward this distance along the outward radial

  /** Eye height above the hit point, along the hit surface's normal. */
  function TerrainTarget(h: Hit): Vec3 {
    Vec3(h.point.x + h.normal.x * EyeHeight, h.point.y + h.normal.y * EyeHeight, h.point.z + h.normal.z * EyeHeight)
  }

  datatype Grounding = Grounding(next: Avatar, correction: Correction)

  /**
   * The three-way grounding decision: land on a close hit when not rising,
   * stay on course while airborne, otherwise follow the terrain; with no hit
   * at all, fall back to the ideal sphere, but only when grounded.
   */
  function Ground(a: Avatar, hit: Option<Hit>): (g: Grounding)
    ensures g.next == a || g.next == a.(isGrounded := true, verticalVelocity := 0.0, jump := false)
    ensures g.correction == Keep <==> !g.next.isGrounded
    ensures !a.isGrounded && g.next.isGrounded ==> hit.Some? && a.verticalVelocity <= 0.0
  {
    match hit
    case Some(h) =>
      if h.distance <= EyeHeight + GroundSlack && a.verticalVelocity <= 0.0 then
        Grounding(a.(isGrounded := true, verticalVelocity := 0.0, jump := false),
                  BlendToward(TerrainTarget(h), LandingBlend))
      else if !a.isGrounded then
        Grounding(a, Keep)
      else
        Grounding(a, BlendToward(TerrainTarget(h), FollowBlend))
    case None =>
      if a.isGrounded then Grounding(a, BlendToSphere(MoonRadius + EyeHeight, FollowBlend))
      else Grounding(a, Keep)
  }

  /** Beyond the maximum jump height the avatar stops rising. */
  function Ceiling(a: Avatar, distanceFromCenter: real): (b: Avatar)
    ensures b == a.(verticalVelocity := b.verticalVelocity)
    ensures b.verticalVelocity == a.verticalVelocity || b.verticalVelocity == 0.0
    ensures b.verticalVelocity <= Max(a.verticalVelocity, 0.0)
  {
    if distanceFromCenter > MoonRadius + MaxJumpHeight then a.(verticalVelocity := 0.0) else a
  }

  /**
   * What the engine reports for one frame: whether horizontal steering runs
   * (pointer locked, or a mobile device), the grounding ray's nearest hit, and
   * the camera's distance from the moon's centre once this frame's motion is applied.
   */
  datatype Frame = Frame(steering: bool, hit: Option<Hit>, distanceFromCenter: real)

  /** Camera-relative moves: `moveRight`, `moveForward` and the radial offset along the outward normal. */
  datatype Displacement = Displacement(right: real, forward: real, radial: real)

  datatype TickResult = TickResult(next: Avatar, move: Displacement, correction: Correction)

  /** One frame of Walk mode, in the order the frame loop runs its steps. */
  function Tick(a: Avatar, f: Frame): (r: TickResult)
    ensures r.next.intent == a.intent
    ensures r.correction == Keep <==> !r.next.isGrounded
    ensures f.steering ==> r.move.right == -r.next.vx && r.move.forward == -r.next.vz
    ensures !f.steering ==> r.next.vx == a.vx && r.next.vz == a.vz && r.move.right == 0.0 && r.move.forward == 0.0
    ensures a.isGrounded ==> r.move.radial == 0.0
  {
    var h := if f.steering then Horizontal(a) else a;
    var g := Gravity(h);
    var ground := Ground(g, f.hit);
    TickResult(
      Ceiling(ground.next, f.distanceFromCenter),
      Displacement(if f.steering then -h.vx else 0.0,
                   if f.steering then -h.vz else 0.0,
                   if !h.isGrounded then g.verticalVelocity else 0.0),
      ground.correction)
  }

  // ---------------------------------------------------------------------------
  // Input adapters

  /** A jump request: honoured only on the ground with no jump in progress. */
  function RequestJump(a: Avatar): (b: Avatar)
    ensures b == a || (a.isGrounded && !a.jump && b == a.(jump := true, verticalVelocity := JumpSpeed, isGrounded := false))
    ensures !b.isGrounded ==> !a.isGrounded || b.verticalVelocity == JumpSpeed
  {
    if a.isGrounded && !a.jump then a.(jump := true, verticalVelocity := JumpSpeed, isGrounded := false)
    else a
  }

  /** The keyboard adapter's key-down handler, on `KeyboardEvent.code`. */
  function KeyDown(a: Avatar, code: string): (b: Avatar)
    ensures b.vx == a.vx && b.vz == a.vz
    ensures b.intent.forward == (a.intent.forward || code == "KeyW") && b.intent.backward == (a.intent.backward || code == "KeyS")
    ensures b.intent.left == (a.intent.left || code == "KeyA") && b.intent.right == (a.intent.right || code == "KeyD")
    ensures code != "Space" ==> b.(intent := a.intent) == a
  {
    if code == "KeyW" then a.(intent := a.intent.(forward := true))
    else if code == "KeyS" then a.(intent := a.intent.(backward := true))
    else if code == "KeyA" then a.(intent := a.intent.(left := true))
    else if code == "KeyD" then a.(intent := a.intent.(right := true))
    else if code == "Space" then RequestJump(a)
    else a
  }

  /** The keyboard adapter's key-up handler. */
  function KeyUp(a: Avatar, code: string): (b: Avatar)
    ensures b.intent.forward == (a.intent.forward && code != "KeyW") && b.intent.backward == (a.intent.backward && code != "KeyS")
    ensures b.intent.left == (a.intent.left && code != "KeyA") && b.intent.right == (a.intent.right && code != "KeyD")
    ensures b.jump == (a.jump && code != "Space")
    ensures b.(intent := a.intent, jump := a.jump) == a
  {
    if code == "KeyW" then a.(intent := a.intent.(forward := false))
    else if code == "KeyS" then a.(intent := a.intent.(backward := false))
    else if code == "KeyA" then a.(intent := a.intent.(left := false))
    else if code == "KeyD" then a.(intent := a.intent.(right := false))
    else if code == "Space" then a.(jump := false)
    else a
  }

  /**
   * The joystick's (already radius-clamped) offset as four direction flags:
   * screen y grows downward, so pushing up means forward.
   */
  function JoystickIntent(x: real, y: real): (i: Intent)
    ensures !(i.forward && i.backward) && !(i.left && i.right)
    ensures i == Idle <==> -JoystickThreshold <= x <= JoystickThreshold && -JoystickThreshold <= y <= JoystickThreshold
  {
    Intent(y < -JoystickThreshold, y > JoystickThreshold, x < -JoystickThreshold, x > JoystickThreshold)
  }

  /** Every way the walker's state can change, in the order events arrive. */
  datatype Event =
    | Press(code: string)
    | Release(code: string)
    | JumpTap
    | Stick(x: real, y: real)
    | StickRelease
    | Step(frame: Frame)

  /** One event: only a frame moves the avatar horizontally, and only a frame, a key press or a jump tap touches the jump state. */
  function Apply(a: Avatar, e: Event): (b: Avatar)
    ensures !e.Step? ==> b.vx == a.vx && b.vz == a.vz
    ensures (e.Release? || e.Stick? || e.StickRelease?) ==> b.verticalVelocity == a.verticalVelocity && b.isGrounded == a.isGrounded
  {
    match e
    case Press(code) => KeyDown(a, code)
    case Release(code) => KeyUp(a, code)
    case JumpTap => RequestJump(a)
    case Stick(x, y) => a.(intent := JoystickIntent(x, y))
    case StickRelease => a.(intent := Idle)
    case Step(f) => Tick(a, f).next
  }

  /** A sequence of events applied in order: without frames, the horizontal velocity never changes. */
  function Run(a: Avatar, es: seq<Event>): (b: Avatar)
    ensures (forall i :: 0 <= i < |es| ==> !es[i].Step?) ==> b.vx == a.vx && b.vz == a.vz
    decreases |es|
  {
    if es == [] then a else Run(Apply(a, es[0]), es[1..])
  }

  // ---------------------------------------------------------------------------
  // Properties

  /** The entry pose sits exactly eye height above the ideal sphere, looks along a tangent, and is below the ceiling. */
  lemma WalkEntryPoseOnSurface()
    ensures Dot(WalkEntryPose.position, WalkEntryPose.position) == (MoonRadius + EyeHeight) * (MoonRadius + EyeHeight)
    ensures Dot(WalkEntryPose.position, WalkEntryPose.facing) == 0.0
    ensures Dot(WalkEntryPose.facing, WalkEntryPose.facing) == 1.0
    ensures MoonRadius + EyeHeight <= MoonRadius + MaxJumpHeight
    ensures Valid(WalkEntry)
  {
  }

  /** From a valid state the clamp never binds: damping alone keeps each axis within MoveSpeed. */
  lemma ClampNeverBinds(v: real, active: bool, d: real)
    requires -MoveSpeed <= v <= MoveSpeed && -1.0 <= d <= 1.0
    ensures AxisStep(v, active, d) == (if active then 0.9 * v - d * Acceleration else 0.9 * v)
  {
  }

  /** Velocity of one axis after `n` frames of sustained intent along it. */
  function Hold(v: real, d: real, n: nat): real
    decreases n
  {
    if n == 0 then v else Hold(AxisStep(v, true, d), d, n - 1)
  }

  /**
   * Holding W from rest (or from any slower forward speed) speeds the avatar
   * up on every frame without ever reaching MoveSpeed: the clamp is never what
   * stops it. (Forward intent drives vz negative.)
   */
  lemma {:induction false} HoldingForwardApproachesMax(v: real, n: nat)
    requires -MoveSpeed < v <= 0.0
    ensures -MoveSpeed < Hold(v, 1.0, n) <= v
    ensures n > 0 ==> Hold(v, 1.0, n) < v
    decreases n
  {
    if n > 0 {
      var w := AxisStep(v, true, 1.0);
      ClampNeverBinds(v, true, 1.0);
      assert -MoveSpeed < w < v;
      HoldingForwardApproachesMax(w, n - 1);
    }
  }

  /**
   * Holding W alone over steering frames drives vz exactly as `Hold` does, so
   * from rest the forward speed grows every frame and stays below MoveSpeed.
   */
  lemma {:induction false} SustainedForward(a: Avatar, es: seq<Event>)
    requires a.intent == Intent(true, false, false, false)
    requires forall i :: 0 <= i < |es| ==> es[i].Step? && es[i].frame.steering
    ensures Run(a, es).intent == a.intent
    ensures Run(a, es).vz == Hold(a.vz, 1.0, |es|)
    ensures -MoveSpeed < a.vz <= 0.0 ==> -MoveSpeed < Run(a, es).vz <= a.vz
    decreases |es|
  {
    if es != [] {
      var b := Apply(a, es[0]);
      assert Direction(a.intent) == (0.0, 1.0);
      assert b.intent == a.intent && b.vz == AxisStep(a.vz, true, 1.0);
      assert forall i :: 0 <= i < |es[1..]| ==> es[1..][i].Step? && es[1..][i].frame.steering by {
        forall i | 0 <= i < |es[1..]| ensures es[1..][i].Step? && es[1..][i].frame.steering {
          assert es[1..][i] == es[i + 1];
        }
      }
      SustainedForward(b, es[1..]);
    }
    if -MoveSpeed < a.vz <= 0.0 {
      HoldingForwardApproachesMax(a.vz, |es|);
    }
  }

  /** A jump changes the state exactly when the avatar is grounded with no jump in progress, and then launches it. */
  lemma JumpOnlyFromGround(a: Avatar)
    ensures RequestJump(a) != a <==> a.isGrounded && !a.jump
    ensures a.isGrounded && !a.jump ==>
      RequestJump(a) == a.(jump := true, verticalVelocity := JumpSpeed, isGrounded := false)
    ensures Valid(a) ==> (RequestJump(a) != a <==> a.isGrounded)
  {
  }

  /** A movement key sets or clears only its own flag; Space up clears only the jump flag. */
  lemma KeysTouchOnlyTheirFlag(a: Avatar)
    ensures KeyDown(a, "KeyW") == a.(intent := a.intent.(forward := true))
    ensures KeyUp(a, "KeyW") == a.(intent := a.intent.(forward := false))
    ensures KeyDown(a, "KeyS") == a.(intent := a.intent.(backward := true))
    ensures KeyUp(a, "KeyS") == a.(intent := a.intent.(backward := false))
    ensures KeyDown(a, "KeyA") == a.(intent := a.intent.(left := true))
    ensures KeyUp(a, "KeyA") == a.(intent := a.intent.(left := false))
    ensures KeyDown(a, "KeyD") == a.(intent := a.intent.(right := true))
    ensures KeyUp(a, "KeyD") == a.(intent := a.intent.(right := false))
    ensures KeyUp(a, "Space") == a.(jump := false)
    ensures KeyDown(a, "Space") == RequestJump(a)
  {
  }

  /** Releasing a movement key undoes pressing it: press then release equals release alone. */
  lemma ReleaseUndoesPress(a: Avatar, code: string)
    requires code in {"KeyW", "KeyS", "KeyA", "KeyD"}
    ensures KeyUp(KeyDown(a, code), code) == KeyUp(a, code)
    ensures KeyUp(a, code).jump == a.jump && KeyUp(a, code).verticalVelocity == a.verticalVelocity
    ensures KeyUp(a, code).isGrounded == a.isGrounded
  {
  }

  /** Keys other than W, S, A, D and Space are ignored in both directions. */
  lemma OtherKeysIgnored(a: Avatar, code: string)
    requires code !in {"KeyW", "KeyS", "KeyA", "KeyD", "Space"}
    ensures KeyDown(a, code) == a && KeyUp(a, code) == a
  {
  }

  /** The joystick steers the integrator the way it is pushed: up is forward, right is right, the dead-zone is still. */
  lemma JoystickSteers(x: real, y: real)
    ensures Direction(JoystickIntent(x, y)).1 > 0.0 <==> y < -JoystickThreshold
    ensures Direction(JoystickIntent(x, y)).1 < 0.0 <==> y > JoystickThreshold
    ensures Direction(JoystickIntent(x, y)).0 > 0.0 <==> x > JoystickThreshold
    ensures Direction(JoystickIntent(x, y)).0 < 0.0 <==> x < -JoystickThreshold
    ensures JoystickIntent(0.0, 0.0) == Idle
  {
  }

  /** An airborne avatar loses exactly MoonGravity per frame; a grounded one keeps its (zero) vertical velocity. */
  lemma GravityStep(a: Avatar)
    ensures !a.isGrounded ==> Gravity(a).verticalVelocity == a.verticalVelocity - MoonGravity
    ensures a.isGrounded ==> Gravity(a) == a
    ensures Gravity(a).isGrounded == a.isGrounded && Gravity(a).vx == a.vx && Gravity(a).vz == a.vz
  {
  }

  /** A hit within eye height plus slack while not rising lands the avatar: grounded, at rest, jump over, fast blend onto the terrain. */
  lemma CloseHitLands(a: Avatar, f: Frame)
    requires f.hit.Some? && f.hit.value.distance <= EyeHeight + GroundSlack
    requires a.verticalVelocity <= (if a.isGrounded then 0.0 else MoonGravity)
    ensures Tick(a, f).next.isGrounded && Tick(a, f).next.verticalVelocity == 0.0 && !Tick(a, f).next.jump
    ensures Tick(a, f).correction == BlendToward(TerrainTarget(f.hit.value), LandingBlend)
  {
  }

  /** An airborne avatar that does not land gets no correction: the radial offset of its vertical velocity stands. */
  lemma AirborneKeepsCourse(a: Avatar, f: Frame)
    requires !a.isGrounded
    requires f.hit.None? || f.hit.value.distance > EyeHeight + GroundSlack || a.verticalVelocity > MoonGravity
    ensures Tick(a, f).correction == Keep && !Tick(a, f).next.isGrounded
    ensures Tick(a, f).move.radial == a.verticalVelocity - MoonGravity
    ensures f.distanceFromCenter <= MoonRadius + MaxJumpHeight ==>
      Tick(a, f).next.verticalVelocity == a.verticalVelocity - MoonGravity
  {
  }

  /** With no hit, the sphere fallback corrects the position exactly when the avatar is grounded. */
  lemma NoHitFallsBackToSphere(a: Avatar, f: Frame)
    requires f.hit.None?
    ensures Tick(a, f).correction != Keep <==> a.isGrounded
    ensures a.isGrounded ==> Tick(a, f).correction == BlendToSphere(MoonRadius + EyeHeight, FollowBlend)
    ensures Tick(a, f).next.isGrounded == a.isGrounded
  {
  }

  /**
   * From a valid state the slower terrain-following blend is used only for a
   * grounded avatar whose hit is beyond eye height plus slack; any closer hit
   * takes the landing branch even when already on the ground.
   */
  lemma FollowOnlyBeyondSlack(a: Avatar, f: Frame)
    requires Valid(a) && f.hit.Some?
    ensures Tick(a, f).correction == BlendToward(TerrainTarget(f.hit.value), FollowBlend) <==>
      a.isGrounded && f.hit.value.distance > EyeHeight + GroundSlack
  {
  }

  /** Beyond the ceiling the frame ends with the avatar not rising; below it the ceiling changes nothing. */
  lemma CeilingStopsRise(a: Avatar, f: Frame)
    ensures f.distanceFromCenter > MoonRadius + MaxJumpHeight ==> Tick(a, f).next.verticalVelocity == 0.0
    ensures f.distanceFromCenter <= MoonRadius + MaxJumpHeight ==>
      Tick(a, f).next == Ground(Gravity(if f.steering then Horizontal(a) else a), f.hit).next
  {
  }

  /** A frame keeps every reachable-state property. */
  lemma TickPreservesValid(a: Avatar, f: Frame)
    requires Valid(a)
    ensures Valid(Tick(a, f).next)
  {
  }

  /** Every input event keeps every reachable-state property. */
  lemma ApplyPreservesValid(a: Avatar, e: Event)
    requires Valid(a)
    ensures Valid(Apply(a, e))
  {
  }

  /** Any sequence of input events and frames keeps every reachable-state property. */
  lemma {:induction false} RunPreservesValid(a: Avatar, es: seq<Event>)
    requires Valid(a)
    ensures Valid(Run(a, es))
    decreases |es|
  {
    if es != [] {
      ApplyPreservesValid(a, es[0]);
      RunPreservesValid(Apply(a, es[0]), es[1..]);
    }
  }

  /**
   * After entering Walk mode, whatever keys, joystick moves, jump taps and
   * frames follow, horizontal speed stays within MoveSpeed on each axis and a
   * grounded avatar is at rest vertically.
   */
  lemma SpeedBoundedAfterWalkEntry(es: seq<Event>)
    ensures -MoveSpeed <= Run(WalkEntry, es).vx <= MoveSpeed
    ensures -MoveSpeed <= Run(WalkEntry, es).vz <= MoveSpeed
    ensures Run(WalkEntry, es).isGrounded ==> Run(WalkEntry, es).verticalVelocity == 0.0
  {
    RunPreservesValid(WalkEntry, es);
  }

  /** A frame that cannot ground an airborne avatar: no hit, or a hit beyond the slack, and below the ceiling. */
  predicate FreeFlight(e: Event) {
    && e.Step?
    && (e.frame.hit.None? || e.frame.hit.value.distance > EyeHeight + GroundSlack)
    && e.frame.distanceFromCenter <= MoonRadius + MaxJumpHeight
  }

  /** In free flight an airborne avatar loses exactly MoonGravity of vertical velocity per frame and stays airborne. */
  lemma {:induction false} FreeFall(a: Avatar, es: seq<Event>)
    requires !a.isGrounded
    requires forall i :: 0 <= i < |es| ==> FreeFlight(es[i])
    ensures !Run(a, es).isGrounded
    ensures Run(a, es).verticalVelocity == a.verticalVelocity - |es| as real * MoonGravity
    decreases |es|
  {
    if es != [] {
      var f := es[0].frame;
      AirborneKeepsCourse(a, f);
      var b := Apply(a, es[0]);
      assert b.verticalVelocity == a.verticalVelocity - MoonGravity;
      assert forall i :: 0 <= i < |es[1..]| ==> FreeFlight(es[1..][i]) by {
        forall i | 0 <= i < |es[1..]| ensures FreeFlight(es[1..][i]) {
          assert es[1..][i] == es[i + 1];
        }
      }
      FreeFall(b, es[1..]);
    }
  }
}
