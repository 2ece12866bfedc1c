/** `PlayerMotor` (Assets/Scripts/Player/PlayerMotor.cs): horizontal speed with
    smoothing, the knockback lock and the facing encoded in the sign of the scale. */
module Motor {
  import opened UnityMath
  import opened Engine
  import opened PlayerConfig

  /** `TickSlowEffect`: the speed for the current slow flag. */
  function MoveSpeedFor(c: MovementConfig, slowed: bool): (speed: real)
    ensures !slowed ==> speed == c.moveSpeed
  {
    if slowed then c.moveSpeed * c.slowRatio else c.moveSpeed
  }

  /** Within the inspector limits a slowed avatar is never faster than an
      unslowed one, and never moves backwards. */
  lemma SlowNeverFaster(c: MovementConfig, slowed: bool)
    requires InspectorLimits(c)
    ensures 0.0 <= MoveSpeedFor(c, slowed) <= c.moveSpeed
  {
    ScaledDown(c.moveSpeed, c.slowRatio);
  }

  /** `FaceDirection(dx)` on the horizontal scale: a negligible `dx` changes
      nothing; otherwise the magnitude is kept and the sign follows `dx`. */
  function FacedScale(scaleX: real, dx: real): (r: real)
    ensures Abs(dx) < 0.0001 ==> r == scaleX
    ensures Abs(r) == Abs(scaleX)
    ensures Abs(dx) >= 0.0001 && dx > 0.0 ==> r >= 0.0
    ensures Abs(dx) >= 0.0001 && dx < 0.0 ==> r <= 0.0
  {
    if Abs(dx) < 0.0001 then scaleX else Abs(scaleX) * Sign(dx)
  }

  /** Facing the same way twice is facing once. */
  lemma FacingIdempotent(scaleX: real, dx: real)
    ensures FacedScale(FacedScale(scaleX, dx), dx) == FacedScale(scaleX, dx)
  {
  }

  /** `Flip(horizontal, blockFlip)` on the horizontal scale, with `locked` the
      knockback lock: facing changes only for a non-zero input while neither
      blocked nor locked, and then it points the way of the input. */
  function FlippedScale(scaleX: real, horizontal: real, blocked: bool, locked: bool): (r: real)
    ensures blocked || locked || horizontal == 0.0 ==> r == scaleX
    ensures Abs(r) == Abs(scaleX)
    ensures !blocked && !locked && horizontal > 0.0 ==> r >= 0.0
    ensures !blocked && !locked && horizontal < 0.0 ==> r <= 0.0
  {
    if blocked || locked then scaleX
    else if horizontal < 0.0 then FacedScale(scaleX, -1.0)
    else if horizontal > 0.0 then FacedScale(scaleX, 1.0)
    else scaleX
  }

  /** The motor's mutable numbers together with the body's velocity. */
  datatype MotorState = MotorState(moveSpeed: real, lockTimer: real, velocity: Vec2)

  /** One `FixedTickHorizontal` call's inputs: the input axis, the caller's block,
      whether the body is static, the ground probe, the fixed `dt`, and `easing`,
      the value `1 - Exp(-lerpRate * dt)` that the engine computes (used only when
      the rate is positive). */
  datatype Drive = Drive(horizontal: real, blocked: bool, isStatic: bool, grounded: bool,
                         dt: real, easing: real)

  /** The smoothing rate: momentum is kept longer in the air. */
  function LerpRate(c: MovementConfig, grounded: bool): real
  {
    if grounded then c.groundHorizontalLerp else c.airHorizontalLerp
  }

  /** `FixedTickHorizontal` as a change of state. A block or a static body stops
      everything, the knockback lock included; a running lock only counts down;
      otherwise only the horizontal velocity moves, toward the target speed and
      never past it, and a non-positive rate snaps to the target. */
  function HorizontalStep(c: MovementConfig, s: MotorState, d: Drive): (r: MotorState)
    ensures d.blocked || d.isStatic ==> r == s
    ensures !d.blocked && !d.isStatic && s.lockTimer > 0.0 ==>
              r == s.(lockTimer := s.lockTimer - d.dt)
    ensures r.moveSpeed == s.moveSpeed
    ensures !d.blocked && !d.isStatic && s.lockTimer <= 0.0 ==>
              var target := d.horizontal * s.moveSpeed;
              && r.lockTimer == s.lockTimer && r.velocity.y == s.velocity.y
              && (s.velocity.x <= target ==> s.velocity.x <= r.velocity.x <= target)
              && (target <= s.velocity.x ==> target <= r.velocity.x <= s.velocity.x)
              && (LerpRate(c, d.grounded) <= 0.0 ==> r.velocity.x == target)
  {
    if d.blocked || d.isStatic then s
    else if s.lockTimer > 0.0 then s.(lockTimer := s.lockTimer - d.dt)
    else
      var target := d.horizontal * s.moveSpeed;
      var t := if LerpRate(c, d.grounded) <= 0.0 then 1.0 else d.easing;
      LerpWithin(s.velocity.x, target, t);
      s.(velocity := Vec2(Lerp(s.velocity.x, target, t), s.velocity.y))
  }

  /** `k` fixed steps with the same drive. */
  function HorizontalSteps(c: MovementConfig, s: MotorState, d: Drive, k: nat): (r: MotorState)
    ensures r.moveSpeed == s.moveSpeed
    decreases k
  {
    if k == 0 then s else HorizontalSteps(c, HorizontalStep(c, s, d), d, k - 1)
  }

  /** Once the lock has run out it stays out. */
  lemma {:induction false} UnlockedStaysUnlocked(c: MovementConfig, s: MotorState, d: Drive, k: nat)
    requires s.lockTimer <= 0.0
    ensures HorizontalSteps(c, s, d, k).lockTimer <= 0.0
    decreases k
  {
    if k > 0 {
      UnlockedStaysUnlocked(c, HorizontalStep(c, s, d), d, k - 1);
    }
  }

  /** Unblocked steps of a dynamic body run a knockback lock out: after `k` steps
      whose durations add up to the lock, the avatar is free again. */
  lemma {:induction false} LockRunsOut(c: MovementConfig, s: MotorState, d: Drive, k: nat)
    requires !d.blocked && !d.isStatic && d.dt > 0.0
    requires k as real * d.dt >= s.lockTimer
    ensures HorizontalSteps(c, s, d, k).lockTimer <= 0.0
    decreases k
  {
    if s.lockTimer <= 0.0 {
      UnlockedStaysUnlocked(c, s, d, k);
    } else {
      assert k > 0;
      var s' := HorizontalStep(c, s, d);
      assert (k - 1) as real * d.dt >= s'.lockTimer;
      LockRunsOut(c, s', d, k - 1);
    }
  }

  /** While blocked, the lock does not count down at all. */
  lemma {:induction false} BlockedLockFrozen(c: MovementConfig, s: MotorState, d: Drive, k: nat)
    requires d.blocked
    ensures HorizontalSteps(c, s, d, k) == s
    decreases k
  {
    if k > 0 {
      BlockedLockFrozen(c, HorizontalStep(c, s, d), d, k - 1);
    }
  }

  class PlayerMotor {
    const config: MovementConfig
    const rb: Rigidbody
    /** The body's transform, whose scale sign is the facing. */
    const transform: Transform
    var currentMoveSpeed: real
    var knockbackLockTimer: real

    /** The component with `Init` applied: the configured speed, no lock. */
    constructor (config: MovementConfig, rb: Rigidbody, transform: Transform)
      ensures this.config == config && this.rb == rb && this.transform == transform
      ensures currentMoveSpeed == config.moveSpeed && knockbackLockTimer == 0.0
    {
      this.config := config;
      this.rb := rb;
      this.transform := transform;
      currentMoveSpeed := config.moveSpeed;
      knockbackLockTimer := 0.0;
    }

    ghost function State(): MotorState
      reads this, rb
    {
      MotorState(currentMoveSpeed, knockbackLockTimer, rb.velocity)
    }

    predicate IsFacingRight()
      reads transform
    {
      transform.scaleX >= 0.0
    }

    predicate IsKnockbackLocked()
      reads this
    {
      knockbackLockTimer > 0.0
    }

    /** `TickSlowEffect`: pick the speed for the shared slow flag (none without
        the flags component). */
    method TickSlowEffect(pState: PlayerStates?)
      modifies this`currentMoveSpeed
      ensures currentMoveSpeed == MoveSpeedFor(config, pState != null && pState.slowed)
    {
      if pState != null && pState.slowed {
        currentMoveSpeed := config.moveSpeed * config.slowRatio;
      } else {
        currentMoveSpeed := config.moveSpeed;
      }
    }

    /** `FixedTickHorizontal`; `grounded` is the ground probe and `easing` the
        engine's `1 - Exp(-lerpRate * dt)`. */
    method FixedTickHorizontal(horizontal: real, blockMovement: bool, grounded: bool,
                               dt: real, easing: real)
      modifies this`knockbackLockTimer, rb`velocity
      ensures State() == HorizontalStep(config, old(State()),
                Drive(horizontal, blockMovement, rb.bodyType == Static, grounded, dt, easing))
    {
      if blockMovement {
        return;
      }
      if rb.bodyType == Static {
        return;
      }
      if knockbackLockTimer > 0.0 {
        knockbackLockTimer := knockbackLockTimer - dt;
        return;
      }
      var targetX := horizontal * currentMoveSpeed;
      var lerpRate := if grounded then config.groundHorizontalLerp else config.airHorizontalLerp;
      var t := if lerpRate <= 0.0 then 1.0 else easing;
      var newX := Lerp(rb.velocity.x, targetX, t);
      rb.velocity := Vec2(newX, rb.velocity.y);
    }

    /** `ApplyKnockback`: take the velocity, and lock for at least `lockSeconds`
        without ever shortening a longer lock. */
    method ApplyKnockback(velocity: Vec2, lockSeconds: real)
      modifies this`knockbackLockTimer, rb`velocity
      ensures rb.velocity == velocity
      ensures knockbackLockTimer == Max(old(knockbackLockTimer), lockSeconds)
      ensures lockSeconds > 0.0 ==> IsKnockbackLocked()
    {
      rb.velocity := velocity;
      knockbackLockTimer := Max(knockbackLockTimer, lockSeconds);
    }

    /** `FaceDirection`. */
    method FaceDirection(directionX: real)
      modifies transform`scaleX
      ensures transform.scaleX == FacedScale(old(transform.scaleX), directionX)
    {
      if Abs(directionX) < 0.0001 {
        return;
      }
      var sign := Sign(directionX);
      transform.scaleX := Abs(transform.scaleX) * sign;
    }

    /** `Flip`. */
    method Flip(horizontal: real, blockFlip: bool)
      modifies transform`scaleX
      ensures transform.scaleX == FlippedScale(old(transform.scaleX), horizontal, blockFlip,
                                               IsKnockbackLocked())
    {
      if blockFlip {
        return;
      }
      if knockbackLockTimer > 0.0 {
        return;
      }
      if horizontal < 0.0 {
        FaceDirection(-1.0);
      } else if horizontal > 0.0 {
        FaceDirection(1.0);
      }
    }
  }
}
