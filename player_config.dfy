/** The player's tuning values (Assets/Scripts/Player/PlayerMovementConfig.cs) and
    the status flags the player components share. */
module PlayerConfig {
  import opened UnityMath

  /** `float.MaxValue`, the open upper end of the wall-slide clamp. */
  const FloatMax: real := 340282346638528859811704183484516925440.0

  /** The inspector fields of `PlayerMovementConfig` that the logic reads. The
      ground and wall check transforms are folded into the overlap results the
      caller supplies; the three attack points are kept as "is assigned" flags. */
  datatype MovementConfig = MovementConfig(
    moveSpeed: real,
    groundHorizontalLerp: real,
    airHorizontalLerp: real,
    jumpingPower: real,
    wallSlidingSpeed: real,
    wallJumpingTime: real,
    wallJumpingDuration: real,
    wallJumpingPower: Vec2,
    dashingPower: real,
    dashingTime: real,
    dashingCooldown: real,
    damage: real,
    sideAttackPoint: bool,
    upAttackPoint: bool,
    downAttackPoint: bool,
    recoilXSteps: int,
    recoilYSteps: int,
    recoilXSpeed: real,
    recoilYSpeed: real,
    hitFlashSpeed: real,
    slowRatio: real)

  /** The values a freshly added component carries, with all attack points assigned. */
  const DefaultMovementConfig := MovementConfig(
    10.0, 22.0, 0.0, 21.0, 3.0, 0.2, 0.4, Vec2(10.0, 20.0), 24.0, 0.2, 0.75, 1.0,
    true, true, true, 3, 3, 25.0, 25.0, 1.0, 0.45)

  /** The `[Min]` and `[Range]` bounds the inspector enforces. */
  predicate InspectorLimits(c: MovementConfig)
  {
    c.moveSpeed >= 0.0 && c.groundHorizontalLerp >= 0.0 && c.airHorizontalLerp >= 0.0
    && c.jumpingPower >= 0.0 && c.wallSlidingSpeed >= 0.0 && c.wallJumpingTime >= 0.0
    && c.wallJumpingDuration >= 0.0 && c.dashingPower >= 0.0 && c.dashingTime >= 0.0
    && c.dashingCooldown >= 0.0 && c.damage >= 0.0 && c.recoilXSteps >= 0 && c.recoilYSteps >= 0
    && c.recoilXSpeed >= 0.0 && c.recoilYSpeed >= 0.0 && c.hitFlashSpeed >= 0.0
    && 0.0 <= c.slowRatio <= 1.0
  }

  /** The results of the two overlap probes for the current frame: `IsGrounded()`
      and `IsWalled()` (each false when its check transform is unassigned). */
  datatype Contact = Contact(grounded: bool, walled: bool)

  /** The `PlayerStatesList` flags the components read and write. */
  class PlayerStates {
    var slowed: bool
    var recoilingX: bool
    var recoilingY: bool
    var invincible: bool

    constructor ()
      ensures !slowed && !recoilingX && !recoilingY && !invincible
    {
      slowed := false;
      recoilingX := false;
      recoilingY := false;
      invincible := false;
    }
  }
}
