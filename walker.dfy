/**
 * The walker as the frame loop and the event handlers see it: the movement
 * flags, the horizontal velocity and the jump state are fields updated in
 * place, step by step. Each method is proved against the pure step of the
 * Locomotion module that specifies it, and keeps Locomotion.Valid.
 */
module Walking {
  import opened Optional
  import opened Locomotion

  class Walker {
    // The movement state the input handlers write.
    var forward: bool
    var backward: bool
    var left: bool
    var right: bool
    var jump: bool
    // Horizontal velocity, camera-local.
    var vx: real
    var vz: real
    // The jump state.
    var verticalVelocity: real
    var isGrounded: bool
    /** Whether a finger is on the virtual joystick; not part of the avatar state. */
    var joystickActive: bool

    /** The fields as one Locomotion.Avatar value. */
    function State(): Avatar
      reads this
    {
      Avatar(Intent(forward, backward, left, right), jump, vx, vz, verticalVelocity, isGrounded)
    }

    /** The state declared when the scene is built: no key held, at rest, on the ground. */
    constructor ()
      ensures State() == WalkEntry && Valid(State())
      ensures !joystickActive
    {
      forward, backward, left, right, jump := false, false, false, false, false;
      vx, vz := 0.0, 0.0;
      verticalVelocity, isGrounded := 0.0, true;
      joystickActive := false;
    }

    /**
     * Entering Walk mode: the camera goes to the canonical pose and velocity,
     * jump state and movement flags go back to rest.
     */
    method ResetForWalk() returns (pose: Pose)
      modifies this
      ensures State() == WalkEntry && Valid(State())
      ensures pose == WalkEntryPose
      ensures joystickActive == old(joystickActive)
    {
      pose := Pose(Vec3(0.0, MoonRadius + EyeHeight, 0.0), Vec3(0.0, 0.0, 1.0));
      vx, vz := 0.0, 0.0;
      verticalVelocity := 0.0;
      isGrounded := true;
      forward := false;
      backward := false;
      left := false;
      right := false;
      jump := false;
    }

    /** The desktop adapter's key-down handler. */
    method OnKeyDown(code: string)
      modifies this
      ensures State() == KeyDown(old(State()), code)
      ensures Valid(old(State())) ==> Valid(State())
      ensures joystickActive == old(joystickActive)
    {
      if code == "KeyW" {
        forward := true;
      } else if code == "KeyS" {
        backward := true;
      } else if code == "KeyA" {
        left := true;
      } else if code == "KeyD" {
        right := true;
      } else if code == "Space" {
        if isGrounded && !jump {
          jump := true;
          verticalVelocity := JumpSpeed;
          isGrounded := false;
        }
      }
    }

    /** The desktop adapter's key-up handler. */
    method OnKeyUp(code: string)
      modifies this
      ensures State() == KeyUp(old(State()), code)
      ensures Valid(old(State())) ==> Valid(State())
      ensures joystickActive == old(joystickActive)
    {
      if code == "KeyW" {
        forward := false;
      } else if code == "KeyS" {
        backward := false;
      } else if code == "KeyA" {
        left := false;
      } else if code == "KeyD" {
        right := false;
      } else if code == "Space" {
        jump := false;
      }
    }

    /** The mobile jump button: only on a mobile device in Walk mode, with the same gating as Space. */
    method HandleJump(isMobile: bool, isFirstPerson: bool)
      modifies this
      ensures State() == if isMobile && isFirstPerson then RequestJump(old(State())) else old(State())
      ensures Valid(old(State())) ==> Valid(State())
      ensures joystickActive == old(joystickActive)
    {
      if !isMobile || !isFirstPerson {
        return;
      }
      if isGrounded && !jump {
        jump := true;
        verticalVelocity := JumpSpeed;
        isGrounded := false;
      }
    }

    /**
     * The shared update behind both joystick handlers: the four direction
     * flags follow the (already radius-clamped) offset. It has no guard of its
     * own; its callers check the device and the mode.
     */
    method UpdateJoystick(x: real, y: real)
      modifies this
      ensures State() == old(State()).(intent := JoystickIntent(x, y))
      ensures joystickActive == old(joystickActive)
      ensures Valid(old(State())) ==> Valid(State())
    {
      forward := y < -JoystickThreshold;
      backward := y > JoystickThreshold;
      left := x < -JoystickThreshold;
      right := x > JoystickThreshold;
    }

    /**
     * A finger touches the joystick: only on a mobile device in Walk mode.
     * `x`, `y` are the offset already clamped to the joystick's radius.
     */
    method StartJoystick(isMobile: bool, isFirstPerson: bool, x: real, y: real)
      modifies this
      ensures isMobile && isFirstPerson ==> State() == old(State()).(intent := JoystickIntent(x, y)) && joystickActive
      ensures !(isMobile && isFirstPerson) ==> State() == old(State()) && joystickActive == old(joystickActive)
      ensures Valid(old(State())) ==> Valid(State())
    {
      if !isMobile || !isFirstPerson {
        return;
      }
      joystickActive := true;
      UpdateJoystick(x, y);
    }

    /**
     * The finger moves: only on a mobile device in Walk mode, and only while a
     * touch is active. `x`, `y` are the offset already clamped to the joystick's radius.
     */
    method MoveJoystick(isMobile: bool, isFirstPerson: bool, x: real, y: real)
      modifies this
      ensures State() == if isMobile && isFirstPerson && old(joystickActive) then old(State()).(intent := JoystickIntent(x, y)) else old(State())
      ensures joystickActive == old(joystickActive)
      ensures Valid(old(State())) ==> Valid(State())
    {
      if !isMobile || !isFirstPerson || !joystickActive {
        return;
      }
      UpdateJoystick(x, y);
    }

    /** Lifting the finger off the joystick ends the touch and clears all four direction flags. */
    method EndJoystick(isMobile: bool, isFirstPerson: bool)
      modifies this
      ensures State() == if isMobile && isFirstPerson then old(State()).(intent := Idle) else old(State())
      ensures joystickActive == (old(joystickActive) && !(isMobile && isFirstPerson))
      ensures Valid(old(State())) ==> Valid(State())
    {
      if !isMobile || !isFirstPerson {
        return;
      }
      joystickActive := false;
      forward := false;
      backward := false;
      left := false;
      right := false;
    }

    /**
     * One frame of Walk mode: damping, acceleration and clamp of the
     * horizontal velocity, moon gravity, the grounding decision and the
     * ceiling clamp. Returns the camera moves and the position correction for
     * the engine to apply.
     */
    method Animate(f: Frame) returns (move: Displacement, correction: Correction)
      modifies this
      ensures State() == Tick(old(State()), f).next
      ensures move == Tick(old(State()), f).move
      ensures correction == Tick(old(State()), f).correction
      ensures Valid(old(State())) ==> Valid(State())
      ensures joystickActive == old(joystickActive)
    {
      ghost var before := State();
      move := Displacement(0.0, 0.0, 0.0);
      if f.steering {
        Steer();
        move := move.(right := -vx, forward := -vz);
      }
      if !isGrounded {
        ApplyGravity();
        move := move.(radial := verticalVelocity);
      }
      correction := GroundAgainst(f.hit);
      if f.distanceFromCenter > MoonRadius + MaxJumpHeight {
        verticalVelocity := 0.0;
      }
      if Valid(before) {
        TickPreservesValid(before, f);
      }
    }

    /** Horizontal velocity for one frame: 10% damping, acceleration toward the intent, per-axis clamp. */
    method Steer()
      modifies this
      ensures State() == Horizontal(old(State()))
      ensures joystickActive == old(joystickActive)
      ensures Valid(old(State())) ==> Valid(State())
    {
      var x := vx - vx * 0.1;
      var z := vz - vz * 0.1;
      var direction := Direction(Intent(forward, backward, left, right));
      var acceleration := MoveSpeed * 0.1;
      if forward || backward {
        z := z - direction.1 * acceleration;
      }
      if left || right {
        x := x - direction.0 * acceleration;
      }
      vx, vz := Clamp(x), Clamp(z);
    }

    /** Moon gravity on an airborne walker. */
    method ApplyGravity()
      requires !isGrounded
      modifies this
      ensures State() == Gravity(old(State()))
      ensures joystickActive == old(joystickActive)
      ensures Valid(old(State())) ==> Valid(State())
    {
      verticalVelocity := verticalVelocity - MoonGravity;
    }

    /** The grounding decision against the ray's nearest hit, if any. */
    method GroundAgainst(hit: Option<Hit>) returns (correction: Correction)
      modifies this
      ensures State() == Ground(old(State()), hit).next
      ensures correction == Ground(old(State()), hit).correction
      ensures joystickActive == old(joystickActive)
      ensures Valid(old(State())) ==> Valid(State())
    {
      correction := Keep;
      match hit {
        case Some(h) =>
          if h.distance <= EyeHeight + GroundSlack && verticalVelocity <= 0.0 {
            isGrounded := true;
            verticalVelocity := 0.0;
            jump := false;
            correction := BlendToward(TerrainTarget(h), LandingBlend);
          } else if !isGrounded {
            // In the air: no correction, the vertical motion stands.
          } else {
            correction := BlendToward(TerrainTarget(h), FollowBlend);
          }
        case None =>
          if isGrounded {
            correction := BlendToSphere(MoonRadius + EyeHeight, FollowBlend);
          }
      }
    }
  }
}
