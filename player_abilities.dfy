/** `PlayerAbilities` (Assets/Scripts/Player/PlayerAbilities.cs): jumping with one
    air jump, the jump cut on release, wall sliding and wall jumping, the dash, the
    dash gauge and the locomotion state it reports to the state machine.

    The component's fields, the body's velocity and gravity, the facing scale and
    the state machine's state form the `AbilityState` value; each private step of
    `Tick` is specified by a pure `*Step` function on it. */
module Abilities {
  import opened UnityMath
  import opened Engine
  import opened Input
  import opened PlayerConfig
  import opened StateMachine
  import opened Motor
  import Swing

  datatype AbilityState = AbilityState(
    canDoubleJump: bool,
    isWallSliding: bool,
    isWallJumping: bool,
    wallJumpingCounter: real,
    wallJumpingDirection: real,
    canDash: bool,
    isDashing: bool,
    timeSinceDash: real,
    /** The gravity scale the running dash saved, restored when it ends. */
    dashGravity: real,
    velocity: Vec2,
    gravityScale: real,
    scaleX: real,
    machine: MovementState)

  /** `ResetDoubleJump`: landing gives the air jump back. */
  function ResetDoubleJumpStep(s: AbilityState, grounded: bool): (r: AbilityState)
    ensures grounded ==> r.canDoubleJump
    ensures !grounded ==> r == s
    ensures r == s.(canDoubleJump := r.canDoubleJump)
  {
    if grounded then s.(canDoubleJump := true) else s
  }

  /** `WallSlide(horizontal)`: sliding exactly when pressing sideways against a
      wall in the air; a slide caps the fall speed and leaves the horizontal speed. */
  function WallSlideStep(c: MovementConfig, s: AbilityState, horizontal: real, p: Contact): (r: AbilityState)
    ensures r.isWallSliding <==> p.walled && !p.grounded && horizontal != 0.0
    ensures r.velocity.x == s.velocity.x
    ensures r.isWallSliding && c.wallSlidingSpeed >= 0.0 ==>
              r.velocity.y >= -c.wallSlidingSpeed
              && (s.velocity.y >= -c.wallSlidingSpeed && s.velocity.y <= FloatMax ==> r.velocity.y == s.velocity.y)
    ensures !r.isWallSliding ==> r.velocity == s.velocity
    ensures r == s.(isWallSliding := r.isWallSliding, velocity := r.velocity)
  {
    if p.walled && !p.grounded && horizontal != 0.0 then
      s.(isWallSliding := true,
         velocity := Vec2(s.velocity.x, Clamp(s.velocity.y, -c.wallSlidingSpeed, FloatMax)))
    else
      s.(isWallSliding := false)
  }

  /** The counter after `WallJump`'s first half: refilled while sliding, run down
      by the frame time otherwise. */
  function WallJumpWindow(c: MovementConfig, s: AbilityState, dt: real): (r: AbilityState)
    ensures s.isWallSliding ==> !r.isWallJumping && r.wallJumpingCounter == c.wallJumpingTime
                                && (r.wallJumpingDirection == 1.0 <==> s.scaleX < 0.0)
                                && (r.wallJumpingDirection == -1.0 <==> s.scaleX >= 0.0)
    ensures !s.isWallSliding ==> r == s.(wallJumpingCounter := s.wallJumpingCounter - dt)
    ensures r == s.(isWallJumping := r.isWallJumping, wallJumpingCounter := r.wallJumpingCounter,
                    wallJumpingDirection := r.wallJumpingDirection)
  {
    if s.isWallSliding then
      s.(isWallJumping := false, wallJumpingDirection := -Sign(s.scaleX),
         wallJumpingCounter := c.wallJumpingTime)
    else
      s.(wallJumpingCounter := s.wallJumpingCounter - dt)
  }

  /** `WallJump(jumpPressed)`: a jump inside the window leaps away from the wall,
      closes the window, marks the wall jump and faces the leap. */
  function WallJumpStep(c: MovementConfig, s: AbilityState, jumpPressed: bool, dt: real): (r: AbilityState)
    ensures var w := WallJumpWindow(c, s, dt);
            if jumpPressed && w.wallJumpingCounter > 0.0 then
              && r.isWallJumping && r.wallJumpingCounter == 0.0
              && r.velocity == Vec2(w.wallJumpingDirection * c.wallJumpingPower.x, c.wallJumpingPower.y)
              && r.scaleX == FacedScale(s.scaleX, w.wallJumpingDirection)
              && r == w.(isWallJumping := true, wallJumpingCounter := 0.0,
                         velocity := r.velocity, scaleX := r.scaleX)
            else r == w
  {
    var w := WallJumpWindow(c, s, dt);
    if !jumpPressed || w.wallJumpingCounter <= 0.0 then w
    else
      w.(isWallJumping := true,
         velocity := Vec2(w.wallJumpingDirection * c.wallJumpingPower.x, c.wallJumpingPower.y),
         wallJumpingCounter := 0.0,
         scaleX := FacedScale(w.scaleX, w.wallJumpingDirection))
  }

  /** `TryJump(jumpPressed)`: needs the press and the jump in hand; sets the rise
      speed and keeps the horizontal speed; a jump in the air spends the air jump. */
  function JumpStep(c: MovementConfig, s: AbilityState, jumpPressed: bool, grounded: bool): (r: AbilityState)
    ensures !jumpPressed || !s.canDoubleJump ==> r == s
    ensures jumpPressed && s.canDoubleJump ==>
              r.velocity == Vec2(s.velocity.x, c.jumpingPower)
              && (r.canDoubleJump <==> grounded)
              && r == s.(velocity := r.velocity, canDoubleJump := r.canDoubleJump)
  {
    if !jumpPressed || !s.canDoubleJump then s
    else s.(canDoubleJump := grounded, velocity := Vec2(s.velocity.x, c.jumpingPower))
  }

  /** `ReduceJumpHeightOnRelease(jumpReleased)`: halves a rise, only on release
      and only when the swing is not asking for the cut to be skipped. */
  function JumpCutStep(s: AbilityState, jumpReleased: bool, ignoreCut: bool): (r: AbilityState)
    ensures r.velocity.x == s.velocity.x
    ensures r.velocity.y != s.velocity.y <==> jumpReleased && !ignoreCut && s.velocity.y > 0.0
    ensures r.velocity.y != s.velocity.y ==>
              0.0 < r.velocity.y < s.velocity.y && r.velocity.y + r.velocity.y == s.velocity.y
    ensures r == s.(velocity := r.velocity)
  {
    if !jumpReleased || ignoreCut || s.velocity.y <= 0.0 then s
    else s.(velocity := Vec2(s.velocity.x, s.velocity.y * 0.5))
  }

  /** `TryDash(dashPressed)` with the part of the `Dash` coroutine that runs at
      once: refused when not pressed, without a dash in hand, or while sliding;
      otherwise the dash spends itself, saves and zeroes gravity, shoots along
      the facing and restarts the gauge. */
  function DashStep(c: MovementConfig, s: AbilityState, dashPressed: bool): (r: AbilityState)
    ensures !dashPressed || !s.canDash || s.isWallSliding ==> r == s
    ensures dashPressed && s.canDash && !s.isWallSliding ==>
              && !r.canDash && r.isDashing && r.timeSinceDash == 0.0
              && r.dashGravity == s.gravityScale && r.gravityScale == 0.0
              && r.velocity.y == 0.0
              && r == s.(canDash := false, isDashing := true, timeSinceDash := 0.0,
                         dashGravity := s.gravityScale, gravityScale := 0.0, velocity := r.velocity)
  {
    if !dashPressed || !s.canDash || s.isWallSliding then s
    else
      s.(canDash := false, isDashing := true, dashGravity := s.gravityScale,
         gravityScale := 0.0, velocity := Vec2(s.scaleX * c.dashingPower, 0.0),
         timeSinceDash := 0.0)
  }

  /** `UpdateStateMachine`'s choice: dashing, then wall jumping, then wall sliding,
      then grounded, else airborne. */
  function Reported(s: AbilityState, grounded: bool): (m: MovementState)
  {
    if s.isDashing then Dashing
    else if s.isWallJumping then WallJumping
    else if s.isWallSliding then WallSliding
    else if grounded then Grounded
    else Airborne
  }

  /** Each reported state is exactly the first condition that holds, in priority
      order. */
  lemma ReportedPriority(s: AbilityState, grounded: bool)
    ensures Reported(s, grounded) == Dashing <==> s.isDashing
    ensures Reported(s, grounded) == WallJumping <==> !s.isDashing && s.isWallJumping
    ensures Reported(s, grounded) == WallSliding <==> !s.isDashing && !s.isWallJumping && s.isWallSliding
    ensures Reported(s, grounded) == Grounded <==>
              !s.isDashing && !s.isWallJumping && !s.isWallSliding && grounded
    ensures Reported(s, grounded) == Airborne <==>
              !s.isDashing && !s.isWallJumping && !s.isWallSliding && !grounded
  {
  }

  /** `UpdateDashUi`'s gauge: 0 right after a dash, otherwise the elapsed share of
      the cooldown (a cooldown below 0.0001 counts as 0.0001), capped at full. */
  function DashFill(timeSinceDash: real, cooldown: real): (f: real)
    ensures 0.0 <= f <= 1.0
    ensures timeSinceDash <= 0.0 ==> f == 0.0
    ensures timeSinceDash >= Max(0.0001, cooldown) ==> f == 1.0
  {
    var whole := Max(0.0001, cooldown);
    if timeSinceDash != 0.0 then
      FractionEnds(timeSinceDash, whole);
      Clamp01(timeSinceDash / whole)
    else 0.0
  }

  /** The gauge only fills up as time passes. */
  lemma {:induction false} DashFillMonotone(t1: real, t2: real, cooldown: real)
    requires t1 <= t2
    ensures DashFill(t1, cooldown) <= DashFill(t2, cooldown)
  {
    if t1 > 0.0 {
      DivMonotone(t1, t2, Max(0.0001, cooldown));
    }
  }

  /** `OnEnemyHit`: a hit gives back the air jump and the dash and advances the
      gauge by a second. */
  function EnemyHitStep(s: AbilityState): (r: AbilityState)
    ensures r.canDoubleJump && r.canDash && r.timeSinceDash == s.timeSinceDash + 1.0
    ensures r == s.(canDoubleJump := true, canDash := true, timeSinceDash := r.timeSinceDash)
  {
    s.(canDoubleJump := true, canDash := true, timeSinceDash := s.timeSinceDash + 1.0)
  }

  /** The gauge clock advancing by the frame time. */
  function GaugeStep(s: AbilityState, dt: real): (r: AbilityState)
  {
    s.(timeSinceDash := s.timeSinceDash + dt)
  }

  /** The movement abilities of one unlocked, undashing frame, in order. */
  function MoveStep(c: MovementConfig, s: AbilityState, input: Intent, p: Contact,
                    ignoreCut: bool, dt: real): AbilityState
  {
    var s1 := ResetDoubleJumpStep(s, p.grounded);
    var s2 := WallSlideStep(c, s1, input.horizontal, p);
    var s3 := WallJumpStep(c, s2, input.jumpDown, dt);
    var s4 := JumpStep(c, s3, input.jumpDown, p.grounded);
    var s5 := JumpCutStep(s4, input.jumpUp, ignoreCut);
    DashStep(c, s5, input.dashDown)
  }

  /** `Tick` as a change of state: the gauge clock advances; under a knockback
      lock only the reported state is refreshed; during a dash the state is
      `Dashing` and nothing else happens; otherwise the abilities run in order
      and the state is reported. */
  function TickStep(c: MovementConfig, s: AbilityState, input: Intent, p: Contact,
                    ignoreCut: bool, locked: bool, dt: real): AbilityState
  {
    var s0 := GaugeStep(s, dt);
    if locked then s0.(machine := Reported(s0, p.grounded))
    else if s0.isDashing then s0.(machine := Dashing)
    else
      var m := MoveStep(c, s0, input, p, ignoreCut, dt);
      m.(machine := Reported(m, p.grounded))
  }

  /** The frame of an unlocked, undashing avatar, unfolded. */
  lemma TickStepUnlocked(c: MovementConfig, s: AbilityState, input: Intent, p: Contact,
                         ignoreCut: bool, dt: real)
    requires !s.isDashing
    ensures TickStep(c, s, input, p, ignoreCut, false, dt)
         == var m := MoveStep(c, GaugeStep(s, dt), input, p, ignoreCut, dt);
            m.(machine := Reported(m, p.grounded))
  {
  }

  /** A knockback lock or a running dash leaves every movement quantity as it was:
      velocity, gravity, facing, and the jump, wall and dash flags. */
  lemma LockedOrDashingMovesNothing(c: MovementConfig, s: AbilityState, input: Intent, p: Contact,
                                    ignoreCut: bool, locked: bool, dt: real)
    requires locked || s.isDashing
    ensures var r := TickStep(c, s, input, p, ignoreCut, locked, dt);
            && r == s.(timeSinceDash := s.timeSinceDash + dt, machine := r.machine)
            && (!locked ==> r.machine == Dashing)
  {
  }

  /** The air jump is spent until the avatar lands or hits an enemy: a frame in
      the air that starts without it ends without it. */
  lemma {:induction false} AirJumpStaysSpent(c: MovementConfig, s: AbilityState, input: Intent, p: Contact,
                                             ignoreCut: bool, locked: bool, dt: real)
    requires !p.grounded && !s.canDoubleJump
    ensures !TickStep(c, s, input, p, ignoreCut, locked, dt).canDoubleJump
  {
    var s0 := s.(timeSinceDash := s.timeSinceDash + dt);
    if !locked && !s0.isDashing {
      var s1 := ResetDoubleJumpStep(s0, p.grounded);
      var s2 := WallSlideStep(c, s1, input.horizontal, p);
      var s3 := WallJumpStep(c, s2, input.jumpDown, dt);
      assert !s3.canDoubleJump;
      var s4 := JumpStep(c, s3, input.jumpDown, p.grounded);
      assert s4 == s3;
    }
  }

  /** A jump press with the jump in hand, away from any wall, rises at the jump
      speed, unless a dash in the same frame takes over the velocity. */
  lemma {:induction false} JumpRises(c: MovementConfig, s: AbilityState, input: Intent, p: Contact,
                                     ignoreCut: bool, dt: real)
    requires !s.isDashing && s.canDoubleJump && input.jumpDown && !input.jumpUp && !input.dashDown
    requires !p.walled
    ensures TickStep(c, s, input, p, ignoreCut, false, dt).velocity.y == c.jumpingPower
  {
    var s0 := s.(timeSinceDash := s.timeSinceDash + dt);
    var s1 := ResetDoubleJumpStep(s0, p.grounded);
    var s2 := WallSlideStep(c, s1, input.horizontal, p);
    var s3 := WallJumpStep(c, s2, input.jumpDown, dt);
    assert s3.canDoubleJump;
    var s4 := JumpStep(c, s3, input.jumpDown, p.grounded);
    assert s4.velocity.y == c.jumpingPower;
  }

  class PlayerAbilities {
    const config: MovementConfig
    const rb: Rigidbody
    const motor: PlayerMotor
    const stateMachine: PlayerStateMachine
    /** The swing controller found on the avatar, if any. */
    const swing: Swing.PlayerSwingController?
    /** `config.dashIcon`, if one is assigned. */
    const dashIcon: FillImage?

    var canDoubleJump: bool
    var isWallSliding: bool
    var isWallJumping: bool
    var wallJumpingCounter: real
    var wallJumpingDirection: real
    var canDash: bool
    var isDashing: bool
    var timeSinceDash: real
    var dashGravity: real

    /** The component with its field initialisers and `Init` applied. */
    constructor (config: MovementConfig, motor: PlayerMotor, stateMachine: PlayerStateMachine,
                 swing: Swing.PlayerSwingController?, dashIcon: FillImage?)
      ensures this.config == config && this.motor == motor && rb == motor.rb
      ensures this.stateMachine == stateMachine && this.swing == swing && this.dashIcon == dashIcon
      ensures canDoubleJump && canDash && !isWallSliding && !isWallJumping && !isDashing
      ensures timeSinceDash == 1.0 && wallJumpingCounter == 0.0
    {
      this.config := config;
      this.motor := motor;
      rb := motor.rb;
      this.stateMachine := stateMachine;
      this.swing := swing;
      this.dashIcon := dashIcon;
      canDoubleJump := true;
      isWallSliding := false;
      isWallJumping := false;
      wallJumpingCounter := 0.0;
      wallJumpingDirection := 0.0;
      canDash := true;
      isDashing := false;
      timeSinceDash := 1.0;
      dashGravity := 0.0;
    }

    /** The body this component moves is the motor's. */
    predicate Linked()
    {
      motor.rb == rb
    }

    ghost function State(): AbilityState
      reads this, rb, motor.transform, stateMachine
    {
      AbilityState(canDoubleJump, isWallSliding, isWallJumping, wallJumpingCounter,
                   wallJumpingDirection, canDash, isDashing, timeSinceDash, dashGravity,
                   rb.velocity, rb.gravityScale, motor.transform.scaleX, stateMachine.current)
    }

    /** Whether the swing asks for the jump cut to be skipped. */
    predicate SwingIgnoresJumpCut()
      reads swing
    {
      swing != null && swing.ShouldIgnoreJumpCut()
    }

    /** `Tick`: `p` holds this frame's ground and wall probes and `dt` the frame time. */
    method Tick(input: Intent, p: Contact, dt: real)
      requires Linked()
      modifies this, rb`velocity, rb`gravityScale, motor.transform`scaleX, stateMachine, dashIcon
      ensures State() == TickStep(config, old(State()), input, p, old(SwingIgnoresJumpCut()),
                                  old(motor.IsKnockbackLocked()), dt)
      ensures dashIcon != null ==>
                dashIcon.fillAmount == if old(!motor.IsKnockbackLocked() && isDashing)
                                       then old(dashIcon.fillAmount)
                                       else DashFill(timeSinceDash, config.dashingCooldown)
    {
      AdvanceGauge(dt);
      if motor.knockbackLockTimer > 0.0 {
        UpdateDashUi();
        UpdateStateMachine(p.grounded);
        return;
      }
      if isDashing {
        stateMachine.Set(Dashing);
        return;
      }
      AbilitiesAndReport(input, p, dt);
      TickStepUnlocked(config, old(State()), input, p, old(SwingIgnoresJumpCut()), dt);
    }

    /** The first line of `Tick`. */
    method AdvanceGauge(dt: real)
      modifies this`timeSinceDash
      ensures State() == GaugeStep(old(State()), dt)
    {
      timeSinceDash := timeSinceDash + dt;
    }

    /** The unlocked, undashing remainder of `Tick`: the abilities, the gauge and
        the report. */
    method AbilitiesAndReport(input: Intent, p: Contact, dt: real)
      requires Linked()
      modifies this, rb`velocity, rb`gravityScale, motor.transform`scaleX, stateMachine, dashIcon
      ensures State() == var m := MoveStep(config, old(State()), input, p, SwingIgnoresJumpCut(), dt);
                         m.(machine := Reported(m, p.grounded))
      ensures dashIcon != null ==> dashIcon.fillAmount == DashFill(timeSinceDash, config.dashingCooldown)
    {
      RunAbilities(input, p, dt);
      UpdateDashUi();
      UpdateStateMachine(p.grounded);
    }

    /** The movement abilities of `Tick`, in the order the frame runs them. */
    method RunAbilities(input: Intent, p: Contact, dt: real)
      requires Linked()
      modifies this, rb`velocity, rb`gravityScale, motor.transform`scaleX
      ensures State() == MoveStep(config, old(State()), input, p, SwingIgnoresJumpCut(), dt)
    {
      ResetDoubleJump(p.grounded);
      WallSlide(input.horizontal, p);
      WallJump(input.jumpDown, dt);
      TryJump(input.jumpDown, p.grounded);
      ReduceJumpHeightOnRelease(input.jumpUp);
      TryDash(input.dashDown);
    }

    /** `OnEnemyHit`. */
    method OnEnemyHit()
      modifies this`canDoubleJump, this`canDash, this`timeSinceDash
      ensures State() == EnemyHitStep(old(State()))
    {
      canDoubleJump := true;
      canDash := true;
      timeSinceDash := timeSinceDash + 1.0;
    }

    method ResetDoubleJump(grounded: bool)
      modifies this`canDoubleJump
      ensures State() == ResetDoubleJumpStep(old(State()), grounded)
    {
      if grounded {
        canDoubleJump := true;
      }
    }

    method TryJump(jumpPressed: bool, grounded: bool)
      modifies this`canDoubleJump, rb`velocity
      ensures State() == JumpStep(config, old(State()), jumpPressed, grounded)
    {
      if !jumpPressed || !canDoubleJump {
        return;
      }
      var wasGrounded := grounded;
      if !wasGrounded {
        canDoubleJump := false;
      }
      rb.velocity := Vec2(rb.velocity.x, config.jumpingPower);
    }

    method ReduceJumpHeightOnRelease(jumpReleased: bool)
      modifies rb`velocity
      ensures State() == JumpCutStep(old(State()), jumpReleased, SwingIgnoresJumpCut())
    {
      if !jumpReleased {
        return;
      }
      if swing != null && swing.ShouldIgnoreJumpCut() {
        return;
      }
      if rb.velocity.y <= 0.0 {
        return;
      }
      rb.velocity := Vec2(rb.velocity.x, rb.velocity.y * 0.5);
    }

    /** `TryDash`, with the `Dash` coroutine run up to its first wait. */
    method TryDash(dashPressed: bool)
      modifies this`canDash, this`isDashing, this`dashGravity, this`timeSinceDash
      modifies rb`gravityScale, rb`velocity
      ensures State() == DashStep(config, old(State()), dashPressed)
    {
      if !dashPressed || !canDash || isWallSliding {
        return;
      }
      canDash := false;
      isDashing := true;
      dashGravity := rb.gravityScale;
      rb.gravityScale := 0.0;
      rb.velocity := Vec2(motor.transform.scaleX * config.dashingPower, 0.0);
      timeSinceDash := 0.0;
    }

    /** The `Dash` coroutine after `dashingTime`: gravity back, dash over. */
    method DashTimeElapsed()
      modifies this`isDashing, rb`gravityScale
      ensures !isDashing && rb.gravityScale == old(dashGravity)
      ensures State() == old(State()).(isDashing := false, gravityScale := old(dashGravity))
    {
      rb.gravityScale := dashGravity;
      isDashing := false;
    }

    /** The `Dash` coroutine after the cooldown: the dash comes back only if no
        newer dash restarted the gauge within the cooldown. */
    method DashCooldownElapsed()
      modifies this`canDash
      ensures canDash == (old(canDash) || timeSinceDash >= config.dashingCooldown)
      ensures State() == old(State()).(canDash := canDash)
    {
      if timeSinceDash >= config.dashingCooldown {
        canDash := true;
      }
    }

    method WallSlide(horizontal: real, p: Contact)
      modifies this`isWallSliding, rb`velocity
      ensures State() == WallSlideStep(config, old(State()), horizontal, p)
    {
      if p.walled && !p.grounded && horizontal != 0.0 {
        isWallSliding := true;
        rb.velocity := Vec2(rb.velocity.x, Clamp(rb.velocity.y, -config.wallSlidingSpeed, FloatMax));
      } else {
        isWallSliding := false;
      }
    }

    method WallJump(jumpPressed: bool, dt: real)
      modifies this`isWallJumping, this`wallJumpingDirection, this`wallJumpingCounter
      modifies rb`velocity, motor.transform`scaleX
      ensures State() == WallJumpStep(config, old(State()), jumpPressed, dt)
    {
      if isWallSliding {
        isWallJumping := false;
        wallJumpingDirection := -Sign(motor.transform.scaleX);
        wallJumpingCounter := config.wallJumpingTime;
      } else {
        wallJumpingCounter := wallJumpingCounter - dt;
      }
      if !jumpPressed || wallJumpingCounter <= 0.0 {
        return;
      }
      isWallJumping := true;
      rb.velocity := Vec2(wallJumpingDirection * config.wallJumpingPower.x, config.wallJumpingPower.y);
      wallJumpingCounter := 0.0;
      motor.FaceDirection(wallJumpingDirection);
    }

    /** `StopWallJumping`, which the wall jump schedules `wallJumpingDuration` later. */
    method StopWallJumping()
      modifies this`isWallJumping
      ensures State() == old(State()).(isWallJumping := false)
    {
      isWallJumping := false;
    }

    method UpdateDashUi()
      modifies dashIcon
      ensures dashIcon != null ==> dashIcon.fillAmount == DashFill(timeSinceDash, config.dashingCooldown)
    {
      if dashIcon == null {
        return;
      }
      var cooldown := Max(0.0001, config.dashingCooldown);
      dashIcon.fillAmount := if timeSinceDash != 0.0 then Clamp01(timeSinceDash / cooldown) else 0.0;
    }

    method UpdateStateMachine(grounded: bool)
      modifies stateMachine
      ensures State() == old(State()).(machine := Reported(old(State()), grounded))
    {
      if isDashing {
        stateMachine.Set(Dashing);
      } else if isWallJumping {
        stateMachine.Set(WallJumping);
      } else if isWallSliding {
        stateMachine.Set(WallSliding);
      } else if grounded {
        stateMachine.Set(Grounded);
      } else {
        stateMachine.Set(Airborne);
      }
    }
  }
}
