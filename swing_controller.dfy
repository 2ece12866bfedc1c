/** `PlayerSwingController` (Assets/Scripts/Player/PlayerSwingController.cs): the
    avatar side of rope swinging. A frame `Tick` grabs or releases a nearby grip; a
    physics step shapes gravity while attached, recovers it after release, runs the
    release assists and drives the pendulum along its tangent.

    The controller's scalar state is mirrored by the `SwingState` value, and every
    pure `*Step` function below is the specification of one method of the class. */
module Swing {
  import opened UnityMath
  import opened Engine
  import opened Input
  import opened SwingGrips
  import opened Text

  /** The inspector fields, with their meanings kept by name. */
  datatype SwingConfig = SwingConfig(
    maxAttachDistance: real,
    blockMotorWhileSwinging: bool,
    swingDriveForce: real,
    releaseMotorLockSeconds: real,
    useVelocityBasedReleaseMotorLock: bool,
    releaseHorizSpeedMin: real,
    releaseHorizSpeedMax: real,
    releaseMotorLockMin: real,
    releaseMotorLockMax: real,
    swingGravityMultiplier: real,
    useUpDownGravityProfile: bool,
    upGravityMultiplier: real,
    downGravityMultiplier: real,
    useVelocityBasedReleaseGravity: bool,
    releaseUpSpeedMin: real,
    releaseUpSpeedMax: real,
    releaseRecoverTimeFast: real,
    releaseRecoverTimeSlow: real,
    enableReleaseUpwardAssist: bool,
    releaseUpwardAssistSeconds: real,
    releaseUpwardAssistForce: real,
    releaseUpwardAssistMinUpSpeed: real,
    enableReleaseHorizontalAssist: bool,
    releaseHorizontalAssistSeconds: real,
    releaseHorizontalAssistForce: real,
    releaseHorizontalAssistMinSpeed: real,
    inheritGripPointVelocityOnDetach: bool,
    enableDetachUpwardAssist: bool,
    detachUpwardVelocityMultiplier: real,
    detachUpwardMinSpeed: real)

  /** The values the component ships with. */
  const DefaultConfig := SwingConfig(
    1.25, true, 35.0,
    0.18, true, 3.0, 18.0, 0.12, 0.55,
    0.7, true, 0.55, 0.85,
    true, 1.0, 16.0, 0.10, 0.55,
    true, 0.12, 35.0, 1.0,
    true, 0.14, 14.0, 4.0,
    true, false, 1.12, 0.5)

  /** What the inspector enforces: the three gravity multipliers in [0.1, 1.5]
      and a pop multiplier of at least 1. */
  predicate InspectorLimits(c: SwingConfig)
  {
    0.1 <= c.swingGravityMultiplier <= 1.5
    && 0.1 <= c.upGravityMultiplier <= 1.5
    && 0.1 <= c.downGravityMultiplier <= 1.5
    && c.detachUpwardVelocityMultiplier >= 1.0
  }

  /** The controller's scalar fields together with the avatar body's gravity
      scale and velocity. */
  datatype SwingState = SwingState(
    swinging: bool,
    desiredHorizontal: real,
    lockTimer: real,
    originalGravity: real,
    recovering: bool,
    recoverDefault: real,
    recoverDuration: real,
    recoverElapsed: real,
    upAssistTimer: real,
    horizAssistTimer: real,
    horizAssistSign: real,
    gravityScale: real,
    velocity: Vec2)

  /** What every reachable state satisfies: a recovery in progress divides by a
      duration of at least 0.0001, and the assist timers are never negative. */
  predicate StateOk(s: SwingState)
  {
    ScalarsOk(s.recovering, s.recoverDuration, s.upAssistTimer, s.horizAssistTimer)
  }

  predicate ScalarsOk(recovering: bool, recoverDuration: real, upAssistTimer: real, horizAssistTimer: real)
  {
    (recovering ==> recoverDuration >= 0.0001) && upAssistTimer >= 0.0 && horizAssistTimer >= 0.0
  }

  /** `ShouldBlockMotor`: the motor may not overwrite horizontal velocity. */
  predicate BlocksMotor(c: SwingConfig, s: SwingState)
  {
    (c.blockMotorWhileSwinging && s.swinging) || s.lockTimer > 0.0
  }

  /** `ShouldIgnoreJumpCut`: releasing jump must not cut the rise; a blocked motor
      always comes with an ignored jump cut. */
  predicate IgnoresJumpCut(c: SwingConfig, s: SwingState)
    ensures BlocksMotor(c, s) ==> IgnoresJumpCut(c, s)
  {
    s.swinging || s.lockTimer > 0.0
  }

  /** `GetActiveGravityMultiplier(vy)`. */
  function GravityMultiplier(c: SwingConfig, vy: real): (m: real)
    ensures InspectorLimits(c) ==> 0.1 <= m <= 1.5
    ensures !c.useUpDownGravityProfile ==> m == c.swingGravityMultiplier
    ensures c.useUpDownGravityProfile && vy > 0.01 ==> m == c.upGravityMultiplier
    ensures c.useUpDownGravityProfile && vy <= 0.01 ==> m == c.downGravityMultiplier
  {
    if !c.useUpDownGravityProfile then c.swingGravityMultiplier
    else if vy > 0.01 then c.upGravityMultiplier
    else c.downGravityMultiplier
  }

  /** `Vector2.Distance(p, q) <= d`, compared on squares (a distance is never negative). */
  predicate InReach(p: Vec2, q: Vec2, d: real)
  {
    d >= 0.0 && p.Minus(q).SqrMagnitude() <= d * d
  }

  /** The velocity committed at release, before the optional pop: the grip point's
      velocity when inheritance is on, a connected body exists and it is strictly
      faster; otherwise the avatar's own velocity. */
  function ReleaseVelocity(c: SwingConfig, player: Vec2, connected: bool, gripPoint: Vec2): (v: Vec2)
    ensures v.SqrMagnitude() >= player.SqrMagnitude()
    ensures v == player || v == gripPoint
    ensures v != player ==>
              c.inheritGripPointVelocityOnDetach && connected && gripPoint.SqrMagnitude() > player.SqrMagnitude()
    ensures c.inheritGripPointVelocityOnDetach && connected && gripPoint.SqrMagnitude() > player.SqrMagnitude() ==>
              v == gripPoint
  {
    if c.inheritGripPointVelocityOnDetach && connected && gripPoint.SqrMagnitude() > player.SqrMagnitude()
    then gripPoint
    else player
  }

  /** The optional detach pop: only the vertical component changes, multiplied by
      the pop factor, and only above the threshold. */
  function DetachPop(c: SwingConfig, v: Vec2): (r: Vec2)
    ensures r.x == v.x
    ensures c.enableDetachUpwardAssist && v.y > c.detachUpwardMinSpeed
            ==> r.y == v.y * c.detachUpwardVelocityMultiplier
    ensures !(c.enableDetachUpwardAssist && v.y > c.detachUpwardMinSpeed) ==> r == v
  {
    if c.enableDetachUpwardAssist && v.y > c.detachUpwardMinSpeed
    then Vec2(v.x, v.y * c.detachUpwardVelocityMultiplier)
    else v
  }

  /** A pop factor of at least 1 never slows the release down. */
  lemma PopNeverSlower(c: SwingConfig, v: Vec2)
    requires c.detachUpwardVelocityMultiplier >= 1.0
    ensures DetachPop(c, v).SqrMagnitude() >= v.SqrMagnitude()
  {
    var m := c.detachUpwardVelocityMultiplier;
    if c.enableDetachUpwardAssist && v.y > c.detachUpwardMinSpeed {
      MulMonotone(v.y * v.y, 1.0, m * m);
      assert (v.y * m) * (v.y * m) == (v.y * v.y) * (m * m);
      MulMonotone(m, 1.0, m);
    }
  }

  /** The motor lock started by a release: scaled by the horizontal release speed
      when velocity-based locking is on, the fixed duration otherwise. */
  function LockDuration(c: SwingConfig, v: Vec2): (d: real)
    ensures !c.useVelocityBasedReleaseMotorLock ==> d == c.releaseMotorLockSeconds
  {
    if c.useVelocityBasedReleaseMotorLock then
      Lerp(c.releaseMotorLockMin, c.releaseMotorLockMax,
           InverseLerp(c.releaseHorizSpeedMin, c.releaseHorizSpeedMax, Abs(v.x)))
    else
      c.releaseMotorLockSeconds
  }

  /** With ordered bounds, a velocity-scaled lock lies in [min, max]; at or below
      the slow speed it is the minimum, at or above the fast speed the maximum. */
  lemma LockDurationBounds(c: SwingConfig, v: Vec2)
    requires c.useVelocityBasedReleaseMotorLock && c.releaseMotorLockMin <= c.releaseMotorLockMax
    ensures c.releaseMotorLockMin <= LockDuration(c, v) <= c.releaseMotorLockMax
    ensures c.releaseHorizSpeedMin < c.releaseHorizSpeedMax && Abs(v.x) <= c.releaseHorizSpeedMin
            ==> LockDuration(c, v) == c.releaseMotorLockMin
    ensures c.releaseHorizSpeedMin < c.releaseHorizSpeedMax && Abs(v.x) >= c.releaseHorizSpeedMax
            ==> LockDuration(c, v) == c.releaseMotorLockMax
  {
    LerpBetween(c.releaseMotorLockMin, c.releaseMotorLockMax,
                InverseLerp(c.releaseHorizSpeedMin, c.releaseHorizSpeedMax, Abs(v.x)));
  }

  /** A faster horizontal release never gets a shorter velocity-scaled lock. */
  lemma LockDurationMonotone(c: SwingConfig, v1: Vec2, v2: Vec2)
    requires c.useVelocityBasedReleaseMotorLock
    requires c.releaseMotorLockMin <= c.releaseMotorLockMax
    requires c.releaseHorizSpeedMin <= c.releaseHorizSpeedMax
    requires Abs(v1.x) <= Abs(v2.x)
    ensures LockDuration(c, v1) <= LockDuration(c, v2)
  {
    InverseLerpMonotone(c.releaseHorizSpeedMin, c.releaseHorizSpeedMax, Abs(v1.x), Abs(v2.x));
    LerpMonotone(c.releaseMotorLockMin, c.releaseMotorLockMax,
                 InverseLerp(c.releaseHorizSpeedMin, c.releaseHorizSpeedMax, Abs(v1.x)),
                 InverseLerp(c.releaseHorizSpeedMin, c.releaseHorizSpeedMax, Abs(v2.x)));
  }

  /** The gravity recovery time after a velocity-based release, from the upward
      release speed, floored at 0.0001 so that it can be divided by. */
  function RecoverDuration(c: SwingConfig, vy: real): (d: real)
    ensures d >= 0.0001
  {
    Max(0.0001, Lerp(c.releaseRecoverTimeFast, c.releaseRecoverTimeSlow,
                     InverseLerp(c.releaseUpSpeedMin, c.releaseUpSpeedMax, Max(0.0, vy))))
  }

  /** With `0.0001 <= fast <= slow`, the recovery time lies in [fast, slow] and
      grows with the upward release speed. */
  lemma RecoverDurationBoundsAndMonotone(c: SwingConfig, vy1: real, vy2: real)
    requires 0.0001 <= c.releaseRecoverTimeFast <= c.releaseRecoverTimeSlow
    requires c.releaseUpSpeedMin <= c.releaseUpSpeedMax && vy1 <= vy2
    ensures c.releaseRecoverTimeFast <= RecoverDuration(c, vy1) <= c.releaseRecoverTimeSlow
    ensures RecoverDuration(c, vy1) <= RecoverDuration(c, vy2)
  {
    var a1 := InverseLerp(c.releaseUpSpeedMin, c.releaseUpSpeedMax, Max(0.0, vy1));
    var a2 := InverseLerp(c.releaseUpSpeedMin, c.releaseUpSpeedMax, Max(0.0, vy2));
    LerpBetween(c.releaseRecoverTimeFast, c.releaseRecoverTimeSlow, a1);
    InverseLerpMonotone(c.releaseUpSpeedMin, c.releaseUpSpeedMax, Max(0.0, vy1), Max(0.0, vy2));
    LerpMonotone(c.releaseRecoverTimeFast, c.releaseRecoverTimeSlow, a1, a2);
  }

  /** An assist timer at release: `max(old, seconds)` when armed, zero otherwise. */
  function ArmTimer(armed: bool, timer: real, seconds: real): (r: real)
    ensures armed ==> r >= timer && r >= seconds && (r == timer || r == seconds)
    ensures !armed ==> r == 0.0
  {
    if armed then Max(timer, seconds) else 0.0
  }

  /** One physics step of an assist countdown: down by `dt`, clamped at zero. */
  function CountDown(timer: real, dt: real): (r: real)
    ensures r >= 0.0
    ensures r == 0.0 || r == timer - dt
    ensures dt >= 0.0 ==> r <= Max(timer, 0.0)
    ensures timer - dt <= 0.0 ==> r == 0.0
  {
    if timer - dt <= 0.0 then 0.0 else timer - dt
  }

  /** `Attach` on a present grip, as a change of state. */
  function AttachStep(c: SwingConfig, s: SwingState): (r: SwingState)
    ensures r.swinging && !r.recovering
    ensures r.originalGravity == s.gravityScale
    ensures r.gravityScale == s.gravityScale * GravityMultiplier(c, s.velocity.y)
    ensures r.velocity == s.velocity && r.lockTimer == s.lockTimer
    ensures StateOk(s) ==> StateOk(r)
  {
    s.(swinging := true, originalGravity := s.gravityScale,
       gravityScale := s.gravityScale * GravityMultiplier(c, s.velocity.y),
       recovering := false)
  }

  /** The motor lock a release starts: at least the lock already running. */
  function ReleaseLock(c: SwingConfig, s: SwingState, v: Vec2): (r: SwingState)
    ensures r == s.(lockTimer := r.lockTimer)
    ensures r.lockTimer >= s.lockTimer && r.lockTimer >= LockDuration(c, v)
    ensures r.lockTimer == s.lockTimer || r.lockTimer == LockDuration(c, v)
  {
    s.(lockTimer := Max(s.lockTimer, LockDuration(c, v)))
  }

  /** The gravity a release leaves: zero and recovering towards the saved scale
      over `RecoverDuration` when velocity-based, otherwise the saved scale times
      the profile multiplier for the release velocity, not recovering. */
  function ReleaseGravity(c: SwingConfig, s: SwingState, v: Vec2): (r: SwingState)
    ensures c.useVelocityBasedReleaseGravity
            ==> r == s.(recoverDefault := s.originalGravity, recoverElapsed := 0.0,
                        recoverDuration := r.recoverDuration, gravityScale := 0.0, recovering := true)
                && r.recoverDuration == RecoverDuration(c, v.y)
    ensures !c.useVelocityBasedReleaseGravity
            ==> r == s.(gravityScale := r.gravityScale, recovering := false)
                && r.gravityScale == s.originalGravity * GravityMultiplier(c, v.y)
  {
    if c.useVelocityBasedReleaseGravity then
      s.(recoverDefault := s.originalGravity, recoverElapsed := 0.0,
         recoverDuration := RecoverDuration(c, v.y), gravityScale := 0.0, recovering := true)
    else
      s.(gravityScale := s.originalGravity * GravityMultiplier(c, v.y), recovering := false)
  }

  /** The assists a release arms from its velocity `v`; a horizontal assist that
      is not armed keeps the previous sign. */
  function ReleaseAssists(c: SwingConfig, s: SwingState, v: Vec2): (r: SwingState)
    ensures r == s.(upAssistTimer := r.upAssistTimer, horizAssistTimer := r.horizAssistTimer,
                    horizAssistSign := r.horizAssistSign)
    ensures r.upAssistTimer >= 0.0 || s.upAssistTimer < 0.0
    ensures !(c.enableReleaseHorizontalAssist && Abs(v.x) > c.releaseHorizontalAssistMinSpeed)
            ==> r.horizAssistTimer == 0.0 && r.horizAssistSign == s.horizAssistSign
  {
    var s1 := s.(upAssistTimer := ArmTimer(c.enableReleaseUpwardAssist && v.y > c.releaseUpwardAssistMinUpSpeed,
                                           s.upAssistTimer, c.releaseUpwardAssistSeconds));
    if c.enableReleaseHorizontalAssist && Abs(v.x) > c.releaseHorizontalAssistMinSpeed then
      s1.(horizAssistTimer := Max(s.horizAssistTimer, c.releaseHorizontalAssistSeconds),
          horizAssistSign := Sign(v.x))
    else
      s1.(horizAssistTimer := 0.0)
  }

  /** `Detach`, as a change of state: `connected` says whether the hinge had a
      connected body and `gripPoint` is that body's velocity at the avatar. */
  function DetachStep(c: SwingConfig, s: SwingState, connected: bool, gripPoint: Vec2): (r: SwingState)
    ensures !r.swinging
    ensures r.lockTimer >= s.lockTimer
    ensures r.lockTimer >= LockDuration(c, ReleaseVelocity(c, s.velocity, connected, gripPoint))
    ensures c.useVelocityBasedReleaseGravity
            ==> r.gravityScale == 0.0 && r.recovering && r.recoverElapsed == 0.0
                && r.recoverDefault == s.originalGravity && r.recoverDuration >= 0.0001
    ensures !c.useVelocityBasedReleaseGravity ==> !r.recovering
    ensures r.desiredHorizontal == s.desiredHorizontal && r.originalGravity == s.originalGravity
    ensures StateOk(s) ==> StateOk(r)
  {
    var v := ReleaseVelocity(c, s.velocity, connected, gripPoint);
    var s1 := ReleaseGravity(c, ReleaseLock(c, s.(swinging := false), v), v);
    ReleaseAssists(c, s1, v).(velocity := DetachPop(c, v))
  }

  /** The velocity a release commits is never slower than the avatar's velocity
      just before it (given the inspector's pop factor of at least 1). */
  lemma ReleaseNeverSlower(c: SwingConfig, s: SwingState, connected: bool, gripPoint: Vec2)
    requires c.detachUpwardVelocityMultiplier >= 1.0
    ensures DetachStep(c, s, connected, gripPoint).velocity.SqrMagnitude() >= s.velocity.SqrMagnitude()
  {
    PopNeverSlower(c, ReleaseVelocity(c, s.velocity, connected, gripPoint));
  }

  /** The release assists are armed from the committed release velocity (before
      the pop): the upward one above its vertical threshold, the horizontal one
      above its speed threshold, taking the sign of the horizontal velocity. */
  lemma ReleaseAssistsArmed(c: SwingConfig, s: SwingState, connected: bool, gripPoint: Vec2)
    ensures var v := ReleaseVelocity(c, s.velocity, connected, gripPoint);
            var r := DetachStep(c, s, connected, gripPoint);
            var up := c.enableReleaseUpwardAssist && v.y > c.releaseUpwardAssistMinUpSpeed;
            var side := c.enableReleaseHorizontalAssist && Abs(v.x) > c.releaseHorizontalAssistMinSpeed;
            (up ==> r.upAssistTimer == Max(s.upAssistTimer, c.releaseUpwardAssistSeconds))
            && (!up ==> r.upAssistTimer == 0.0)
            && (side ==> r.horizAssistTimer == Max(s.horizAssistTimer, c.releaseHorizontalAssistSeconds)
                         && r.horizAssistSign * v.x >= 0.0
                         && (r.horizAssistSign == 1.0 || r.horizAssistSign == -1.0))
            && (!side ==> r.horizAssistTimer == 0.0 && r.horizAssistSign == s.horizAssistSign)
  {
  }

  /** `Tick`, as a change of state. `reachable` says that a grip is near and within
      `maxAttachDistance`; `connected` and `gripPoint` are as for `DetachStep`. */
  function TickStep(c: SwingConfig, s: SwingState, input: Intent, dt: real,
                    reachable: bool, connected: bool, gripPoint: Vec2): (r: SwingState)
    ensures r.desiredHorizontal == input.horizontal
    ensures s.swinging ==> r.swinging == input.jumpHeld
    ensures !s.swinging ==> r.swinging == (input.jumpHeld && reachable)
    ensures !(s.swinging && !input.jumpHeld) && s.lockTimer > 0.0 ==> r.lockTimer == s.lockTimer - dt
    ensures s.lockTimer <= 0.0 ==> r.lockTimer >= s.lockTimer
    ensures StateOk(s) ==> StateOk(r)
  {
    var s1 := s.(desiredHorizontal := input.horizontal,
                 lockTimer := if s.lockTimer > 0.0 then s.lockTimer - dt else s.lockTimer);
    if !input.jumpHeld && s.swinging then DetachStep(c, s1, connected, gripPoint)
    else if input.jumpHeld && !s.swinging && reachable then AttachStep(c, s1)
    else s1
  }

  /** Gravity recovery after a release: elapsed time, gravity scale, and whether
      the recovery is still running. */
  datatype Recovery = Recovery(recovering: bool, elapsed: real, gravity: real)

  /** One physics step of gravity recovery towards `target` over `duration`. */
  function RecoveryStep(r: Recovery, duration: real, target: real, dt: real): (n: Recovery)
    requires duration > 0.0
    ensures !r.recovering ==> n == r
    ensures r.recovering ==> n.elapsed == r.elapsed + dt
    ensures r.recovering && !n.recovering ==> n.gravity == target
  {
    if !r.recovering then r
    else
      var e := r.elapsed + dt;
      var t := Clamp01(e / duration);
      if t >= 1.0 then Recovery(false, e, target)
      else Recovery(true, e, Lerp(0.0, target, t))
  }

  /** Each recovery step sets gravity to the target scaled by the clamped elapsed
      fraction, and stops exactly when that fraction reaches 1. */
  lemma RecoveryStepIsFraction(r: Recovery, duration: real, target: real, dt: real)
    requires duration > 0.0 && r.recovering
    ensures var n := RecoveryStep(r, duration, target, dt);
            n.gravity == target * Clamp01(n.elapsed / duration)
            && (n.recovering <==> n.elapsed < duration)
  {
    var e := r.elapsed + dt;
    if e < duration {
      if e >= 0.0 {
        FractionInUnit(e, duration);
      } else {
        FractionEnds(e, duration);
      }
      FractionBelowOne(e, duration);
    } else {
      FractionEnds(e, duration);
    }
  }

  /** A part smaller than a positive whole is a fraction below 1. */
  lemma FractionBelowOne(p: real, d: real)
    requires d > 0.0 && p < d
    ensures p / d < 1.0
  {
    assert p / d * d == p;
    if p / d >= 1.0 {
      MulMonotone(d, 1.0, p / d);
    }
  }

  /** `n` physics steps of gravity recovery. */
  function RecoverySteps(r: Recovery, duration: real, target: real, dt: real, n: nat): Recovery
    requires duration > 0.0
    decreases n
  {
    if n == 0 then r else RecoverySteps(RecoveryStep(r, duration, target, dt), duration, target, dt, n - 1)
  }

  /** A recovery still short of its duration is over, with gravity exactly at the
      target, once enough positive steps have covered the remaining time. */
  lemma {:induction false} RecoveryCompletes(r: Recovery, duration: real, target: real, dt: real, n: nat)
    requires duration > 0.0 && dt > 0.0
    requires r.recovering && r.elapsed < duration
    requires r.elapsed + (n as real) * dt >= duration
    ensures var f := RecoverySteps(r, duration, target, dt, n);
            !f.recovering && f.gravity == target
    decreases n
  {
    var next := RecoveryStep(r, duration, target, dt);
    RecoveryStepIsFraction(r, duration, target, dt);
    if next.recovering {
      assert n != 0;
      assert next.elapsed + ((n - 1) as real) * dt >= duration;
      RecoveryCompletes(next, duration, target, dt, n - 1);
    } else {
      assert n != 0;
      StaysDone(next, duration, target, dt, n - 1);
    }
  }

  /** A finished recovery is left alone by later steps. */
  lemma {:induction false} StaysDone(r: Recovery, duration: real, target: real, dt: real, n: nat)
    requires duration > 0.0 && !r.recovering
    ensures RecoverySteps(r, duration, target, dt, n) == r
    decreases n
  {
    if n > 0 {
      StaysDone(RecoveryStep(r, duration, target, dt), duration, target, dt, n - 1);
    }
  }

  /** The gravity half of a physics step: the swing profile while attached
      (unless a recovery is running), one recovery step while detached. Nothing
      but the gravity scale and the recovery fields changes. */
  function GravityStep(c: SwingConfig, s: SwingState, dt: real): (r: SwingState)
    requires StateOk(s)
    ensures StateOk(r)
    ensures r.(gravityScale := s.gravityScale, recoverElapsed := s.recoverElapsed,
               recovering := s.recovering) == s
    ensures s.swinging && !(c.useVelocityBasedReleaseGravity && s.recovering)
            ==> r.gravityScale == s.originalGravity * GravityMultiplier(c, s.velocity.y)
    ensures s.swinging ==> r.recoverElapsed == s.recoverElapsed && r.recovering == s.recovering
    ensures !s.swinging && !(c.useVelocityBasedReleaseGravity && s.recovering) ==> r == s
  {
    var s1 :=
      if s.swinging && !(c.useVelocityBasedReleaseGravity && s.recovering)
      then s.(gravityScale := s.originalGravity * GravityMultiplier(c, s.velocity.y))
      else s;
    if c.useVelocityBasedReleaseGravity && s1.recovering && !s1.swinging then
      var n := RecoveryStep(Recovery(true, s1.recoverElapsed, s1.gravityScale),
                            s1.recoverDuration, s1.recoverDefault, dt);
      s1.(recoverElapsed := n.elapsed, gravityScale := n.gravity, recovering := n.recovering)
    else s1
  }

  /** The assist half of a physics step: each running assist timer counts down
      while detached; nothing else changes. */
  function AssistStep(c: SwingConfig, s: SwingState, dt: real): (r: SwingState)
    ensures r == s.(upAssistTimer := r.upAssistTimer, horizAssistTimer := r.horizAssistTimer)
    ensures s.swinging ==> r == s
    ensures s.upAssistTimer >= 0.0 ==> r.upAssistTimer >= 0.0
    ensures s.horizAssistTimer >= 0.0 ==> r.horizAssistTimer >= 0.0
    ensures dt >= 0.0 ==> r.upAssistTimer <= s.upAssistTimer && r.horizAssistTimer <= s.horizAssistTimer
  {
    var s3 :=
      if !s.swinging && c.enableReleaseUpwardAssist && s.upAssistTimer > 0.0
      then s.(upAssistTimer := CountDown(s.upAssistTimer, dt))
      else s;
    if !s.swinging && c.enableReleaseHorizontalAssist && s.horizAssistTimer > 0.0
    then s3.(horizAssistTimer := CountDown(s.horizAssistTimer, dt))
    else s3
  }

  /** The fixed step's effect on gravity and the assist timers (its forces are
      given by `FixedForces`). */
  function FixedStep(c: SwingConfig, s: SwingState, dt: real): (r: SwingState)
    requires StateOk(s)
    ensures StateOk(r)
    ensures r.swinging == s.swinging && r.velocity == s.velocity && r.lockTimer == s.lockTimer
    ensures s.swinging && !(c.useVelocityBasedReleaseGravity && s.recovering)
            ==> r.gravityScale == s.originalGravity * GravityMultiplier(c, s.velocity.y)
    ensures s.swinging ==> r.upAssistTimer == s.upAssistTimer && r.horizAssistTimer == s.horizAssistTimer
  {
    AssistStep(c, GravityStep(c, s, dt), dt)
  }

  /** While attached, a physics step at the velocity of the grab recomputes the
      same gravity product that `Attach` set. */
  lemma AttachedGravityStable(c: SwingConfig, s: SwingState, dt: real)
    requires StateOk(s)
    ensures FixedStep(c, AttachStep(c, s), dt).gravityScale == AttachStep(c, s).gravityScale
  {
  }

  /** The tangent the swing drive pushes along: the perpendicular `(-r.y, r.x)` of
      the rope vector, flipped to point the way the player steers. */
  function TangentDirection(r: Vec2, h: real): (t: Vec2)
    ensures Dot(t, r) == 0.0
    ensures t.x * h >= 0.0
    ensures t.SqrMagnitude() == r.SqrMagnitude()
    ensures t == Vec2(-r.y, r.x) || t == Vec2(r.y, -r.x)
  {
    var p := Vec2(-r.y, r.x);
    if p.x * h < 0.0 then p.Negated() else p
  }

  /** The upward release assist of one physics step: `Vector2.up` times the
      assist force, while detached and while its timer runs. */
  function UpAssistForces(c: SwingConfig, s: SwingState): (f: seq<Force>)
    ensures |f| <= 1
    ensures |f| == 1 <==> !s.swinging && c.enableReleaseUpwardAssist && s.upAssistTimer > 0.0
  {
    if !s.swinging && c.enableReleaseUpwardAssist && s.upAssistTimer > 0.0
    then [Push(Up, 1.0, c.releaseUpwardAssistForce)] else []
  }

  /** The horizontal release assist: `Vector2.right` times sign times force. */
  function SideAssistForces(c: SwingConfig, s: SwingState): (f: seq<Force>)
    ensures |f| <= 1
    ensures |f| == 1 <==> !s.swinging && c.enableReleaseHorizontalAssist && s.horizAssistTimer > 0.0
  {
    if !s.swinging && c.enableReleaseHorizontalAssist && s.horizAssistTimer > 0.0
    then [Push(Right, s.horizAssistSign, c.releaseHorizontalAssistForce)] else []
  }

  /** Steering inside the motor lock: `Vector2.right` times ten times the input. */
  function SteerForces(s: SwingState): (f: seq<Force>)
    ensures |f| <= 1
    ensures |f| == 1 <==> !s.swinging && s.lockTimer > 0.0 && Abs(s.desiredHorizontal) > 0.01
  {
    if !s.swinging && s.lockTimer > 0.0 && Abs(s.desiredHorizontal) > 0.01
    then [Push(Right, s.desiredHorizontal, 10.0)] else []
  }

  /** The pendulum drive while attached: horizontal when there is no anchor or
      the avatar sits on it, otherwise along the rope's tangent. */
  function DriveForces(c: SwingConfig, s: SwingState, player: Vec2, anchor: Option<Vec2>): (f: seq<Force>)
    ensures |f| <= 1
    ensures |f| == 1 <==> s.swinging && Abs(s.desiredHorizontal) >= 0.01
  {
    if !s.swinging || Abs(s.desiredHorizontal) < 0.01 then []
    else if anchor.None? || player.Minus(anchor.value).SqrMagnitude() < 0.0001 then
      [Push(Right, s.desiredHorizontal, c.swingDriveForce)]
    else
      [PushAlong(TangentDirection(player.Minus(anchor.value), s.desiredHorizontal),
                 Abs(s.desiredHorizontal), c.swingDriveForce)]
  }

  /** The forces one physics step applies, in the order it applies them: the
      release assists and the steering force while detached, the pendulum drive
      while attached. `anchor` is the position of the hinge's connected body. */
  function FixedForces(c: SwingConfig, s: SwingState, player: Vec2, anchor: Option<Vec2>): (f: seq<Force>)
    ensures |f| <= 3
    ensures s.swinging ==> |f| <= 1
    ensures s.swinging && Abs(s.desiredHorizontal) < 0.01 ==> f == []
    ensures !s.swinging ==> forall i :: 0 <= i < |f| ==> f[i].Push?
  {
    UpAssistForces(c, s) + SideAssistForces(c, s) + SteerForces(s) + DriveForces(c, s, player, anchor)
  }

  /** While attached to an anchor away from the avatar, the only force is the
      drive: along a direction perpendicular to the rope, on the side of the
      steering input, with magnitude `|h| * swingDriveForce`. */
  lemma DriveIsTangent(c: SwingConfig, s: SwingState, player: Vec2, anchor: Vec2)
    requires s.swinging && Abs(s.desiredHorizontal) >= 0.01
    requires player.Minus(anchor).SqrMagnitude() >= 0.0001
    ensures var f := FixedForces(c, s, player, Some(anchor));
            |f| == 1 && f[0].PushAlong?
            && Dot(f[0].direction, player.Minus(anchor)) == 0.0
            && f[0].direction.x * s.desiredHorizontal >= 0.0
            && f[0].direction.SqrMagnitude() > 0.0
            && f[0].factor == Abs(s.desiredHorizontal) && f[0].strength == c.swingDriveForce
  {
  }

  /** While detached there is no drive; each assist force is present exactly when
      its timer is running, and steering only inside the motor lock. */
  lemma DetachedForces(c: SwingConfig, s: SwingState, player: Vec2, anchor: Option<Vec2>)
    requires !s.swinging
    ensures var f := FixedForces(c, s, player, anchor);
            var up := c.enableReleaseUpwardAssist && s.upAssistTimer > 0.0;
            var side := c.enableReleaseHorizontalAssist && s.horizAssistTimer > 0.0;
            var steer := s.lockTimer > 0.0 && Abs(s.desiredHorizontal) > 0.01;
            (up ==> Push(Up, 1.0, c.releaseUpwardAssistForce) in f)
            && (|f| == 0 <==> !up && !side && !steer)
            && (|f| == 3 <==> up && side && steer)
  {
  }

  class PlayerSwingController {
    const config: SwingConfig
    /** The avatar's body, present by the component's requirement. */
    const rb: Rigidbody
    const hinge: HingeJoint
    var nearbyGrip: SwingGrip?
    var isSwinging: bool
    var desiredHorizontal: real
    var releaseMotorLockTimer: real
    var originalGravityScale: real
    var releaseGravityRecovering: bool
    var releaseGravityDefault: real
    var releaseGravityRecoverDuration: real
    var releaseGravityRecoverElapsed: real
    var releaseUpwardAssistTimer: real
    var releaseHorizontalAssistTimer: real
    var releaseHorizontalAssistSign: real

    /** The scalar state, as a value. */
    ghost function State(): SwingState
      reads this, rb
    {
      SwingState(isSwinging, desiredHorizontal, releaseMotorLockTimer, originalGravityScale,
                 releaseGravityRecovering, releaseGravityDefault, releaseGravityRecoverDuration,
                 releaseGravityRecoverElapsed, releaseUpwardAssistTimer, releaseHorizontalAssistTimer,
                 releaseHorizontalAssistSign, rb.gravityScale, rb.velocity)
    }

    /** `StateOk(State())`, read from the controller's own fields; the hinge is
        on exactly while swinging, and connected exactly then. */
    ghost predicate Valid()
      reads this, hinge, nearbyGrip
    {
      ScalarsOk(releaseGravityRecovering, releaseGravityRecoverDuration,
                releaseUpwardAssistTimer, releaseHorizontalAssistTimer)
      && hinge.enabled == isSwinging
      && (hinge.connectedBody != null <==> isSwinging)
      && (nearbyGrip != null ==> nearbyGrip.Valid())
    }

    /** `Awake`: remember the body's gravity and set up a disabled hinge. */
    constructor (config: SwingConfig, rb: Rigidbody)
      ensures Valid() && fresh(hinge)
      ensures this.config == config && this.rb == rb && nearbyGrip == null
      ensures State() == SwingState(false, 0.0, 0.0, rb.gravityScale, false, 0.0, 0.0, 0.0,
                                    0.0, 0.0, 0.0, rb.gravityScale, rb.velocity)
      ensures !hinge.autoConfigureConnectedAnchor && hinge.anchor == Zero2 && !hinge.enableCollision
    {
      this.config := config;
      this.rb := rb;
      originalGravityScale := rb.gravityScale;
      var h := new HingeJoint();
      h.enabled := false;
      h.autoConfigureConnectedAnchor := false;
      h.anchor := Zero2;
      h.enableCollision := false;
      hinge := h;
      nearbyGrip := null;
      isSwinging := false;
      desiredHorizontal := 0.0;
      releaseMotorLockTimer := 0.0;
      releaseGravityRecovering := false;
      releaseGravityDefault := 0.0;
      releaseGravityRecoverDuration := 0.0;
      releaseGravityRecoverElapsed := 0.0;
      releaseUpwardAssistTimer := 0.0;
      releaseHorizontalAssistTimer := 0.0;
      releaseHorizontalAssistSign := 0.0;
    }

    /** `IsSwinging`. */
    predicate IsSwinging()
      reads this
    {
      isSwinging
    }

    /** `ShouldBlockMotor`. */
    predicate ShouldBlockMotor()
      reads this
      ensures ShouldBlockMotor() ==> ShouldIgnoreJumpCut()
    {
      (config.blockMotorWhileSwinging && isSwinging) || releaseMotorLockTimer > 0.0
    }

    /** `ShouldIgnoreJumpCut`. */
    predicate ShouldIgnoreJumpCut()
      reads this
    {
      isSwinging || releaseMotorLockTimer > 0.0
    }

    /** Whether a grip is remembered and within attach distance of the avatar. */
    predicate GripInReach()
      reads this, rb, nearbyGrip, if nearbyGrip != null then {nearbyGrip.body} else {}
    {
      nearbyGrip != null && InReach(rb.position, nearbyGrip.body.position, config.maxAttachDistance)
    }

    /** `OnTriggerEnter2D` with the entered collider's grip, if it has one. */
    method OnTriggerEnter(grip: SwingGrip?)
      requires Valid() && (grip != null ==> grip.Valid())
      modifies this`nearbyGrip
      ensures Valid()
      ensures nearbyGrip == if grip != null then grip else old(nearbyGrip)
    {
      if grip != null {
        nearbyGrip := grip;
      }
    }

    /** `OnTriggerExit2D`: only leaving the remembered grip forgets it. */
    method OnTriggerExit(grip: SwingGrip?)
      requires Valid()
      modifies this`nearbyGrip
      ensures Valid()
      ensures nearbyGrip == if grip != null && old(nearbyGrip) == grip then null else old(nearbyGrip)
    {
      if grip != null && nearbyGrip == grip {
        nearbyGrip := null;
      }
    }

    /** `Attach`: hang from `grip`'s body and count the grab; nothing for no grip. */
    method Attach(grip: SwingGrip?)
      requires Valid() && (grip != null ==> grip.Valid())
      modifies this`isSwinging, this`originalGravityScale, this`releaseGravityRecovering
      modifies rb`gravityScale, hinge`enabled, hinge`connectedBody, hinge`connectedAnchor, hinge`anchor, grip
      ensures grip == null ==> State() == old(State()) && unchanged(hinge)
      ensures grip != null ==> State() == AttachStep(config, old(State()))
      ensures grip != null ==> hinge.enabled && hinge.connectedBody == grip.body
                               && hinge.connectedAnchor == Zero2 && hinge.anchor == Zero2
      ensures grip != null ==> grip.Valid() && grip.grabbedCount == old(grip.grabbedCount) + 1
      ensures hinge.autoConfigureConnectedAnchor == old(hinge.autoConfigureConnectedAnchor)
      ensures hinge.enableCollision == old(hinge.enableCollision) && hinge.useLimits == old(hinge.useLimits)
      ensures hinge.limitMin == old(hinge.limitMin) && hinge.limitMax == old(hinge.limitMax)
      ensures Valid()
    {
      if grip == null {
        return;
      }
      hinge.connectedBody := grip.body;
      hinge.connectedAnchor := Zero2;
      hinge.anchor := Zero2;
      hinge.enabled := true;
      isSwinging := true;
      originalGravityScale := rb.gravityScale;
      var m := GravityMultiplier(config, rb.velocity.y);
      rb.gravityScale := originalGravityScale * m;
      releaseGravityRecovering := false;
      grip.SetGrabbed(true);
    }
    /** `Detach`: commit the release velocity, unhook, count the release on the
        remembered grip (not on the hinge's body), and start the motor lock, the
        gravity recovery and the assists. `gripPoint` is the connected body's
        velocity at the avatar, which the physics engine supplies. */
    method Detach(gripPoint: Vec2)
      requires Valid()
      modifies this, rb`gravityScale, rb`velocity, hinge`enabled, hinge`connectedBody, nearbyGrip
      ensures Valid()
      ensures State() == DetachStep(config, old(State()), old(hinge.connectedBody) != null, gripPoint)
      ensures !hinge.enabled && hinge.connectedBody == null
      ensures nearbyGrip == old(nearbyGrip)
      ensures nearbyGrip != null ==> nearbyGrip.grabbedCount == CountAfter(old(nearbyGrip.grabbedCount), false)
    {
      ghost var s0 := State();
      ghost var wasConnected := hinge.connectedBody != null;
      var releaseVelocity := CaptureReleaseVelocity(gripPoint);

      if nearbyGrip != null {
        nearbyGrip.SetGrabbed(false);
      }

      hinge.enabled := false;
      hinge.connectedBody := null;
      isSwinging := false;
      assert State() == s0.(swinging := false);

      StartReleaseLock(releaseVelocity);
      StartReleaseGravity(releaseVelocity);
      ArmReleaseAssists(releaseVelocity);
      ApplyReleaseVelocity(releaseVelocity);
      assert State() == DetachStep(config, s0, wasConnected, gripPoint);
    }

    /** The release velocity `Detach` commits: the grip point's velocity when
        inheriting from a connected body and it is the faster of the two, else
        the avatar's own velocity. Changes nothing. */
    method CaptureReleaseVelocity(gripPoint: Vec2) returns (releaseVelocity: Vec2)
      ensures releaseVelocity == ReleaseVelocity(config, rb.velocity, hinge.connectedBody != null, gripPoint)
    {
      var playerVelocity := rb.velocity;
      releaseVelocity := playerVelocity;
      var connected := hinge.connectedBody;
      if config.inheritGripPointVelocityOnDetach && connected != null {
        var gripVelocity := gripPoint;
        releaseVelocity :=
          if gripVelocity.SqrMagnitude() > playerVelocity.SqrMagnitude() then gripVelocity else playerVelocity;
      }
    }

    /** The last part of `Detach`: the optional upward pop, then the velocity
        is committed to the body. */
    method ApplyReleaseVelocity(releaseVelocity: Vec2)
      modifies rb`velocity
      ensures rb.velocity == DetachPop(config, releaseVelocity)
    {
      var v := releaseVelocity;
      if config.enableDetachUpwardAssist && v.y > config.detachUpwardMinSpeed {
        v := Vec2(v.x, v.y * config.detachUpwardVelocityMultiplier);
      }
      rb.velocity := v;
    }

    /** The motor-lock part of `Detach`, for the release velocity `v`. */
    method StartReleaseLock(v: Vec2)
      modifies this`releaseMotorLockTimer
      ensures State() == ReleaseLock(config, old(State()), v)
    {
      var lockSeconds := config.releaseMotorLockSeconds;
      if config.useVelocityBasedReleaseMotorLock {
        var hs := Abs(v.x);
        var a := InverseLerp(config.releaseHorizSpeedMin, config.releaseHorizSpeedMax, hs);
        lockSeconds := Lerp(config.releaseMotorLockMin, config.releaseMotorLockMax, a);
      }
      releaseMotorLockTimer := Max(releaseMotorLockTimer, lockSeconds);
    }

    /** The gravity part of `Detach`, for the release velocity `v`. */
    method StartReleaseGravity(v: Vec2)
      modifies this`releaseGravityDefault, this`releaseGravityRecoverElapsed,
               this`releaseGravityRecoverDuration, this`releaseGravityRecovering, rb`gravityScale
      ensures State() == ReleaseGravity(config, old(State()), v)
    {
      if config.useVelocityBasedReleaseGravity {
        releaseGravityDefault := originalGravityScale;
        releaseGravityRecoverElapsed := 0.0;
        var upSpeed := Max(0.0, v.y);
        var a := InverseLerp(config.releaseUpSpeedMin, config.releaseUpSpeedMax, upSpeed);
        releaseGravityRecoverDuration := Lerp(config.releaseRecoverTimeFast, config.releaseRecoverTimeSlow, a);
        releaseGravityRecoverDuration := Max(0.0001, releaseGravityRecoverDuration);
        rb.gravityScale := 0.0;
        releaseGravityRecovering := true;
      } else {
        rb.gravityScale := originalGravityScale * GravityMultiplier(config, v.y);
        releaseGravityRecovering := false;
      }
    }

    /** The assist part of `Detach`, for the release velocity `v`. */
    method ArmReleaseAssists(v: Vec2)
      modifies this`releaseUpwardAssistTimer, this`releaseHorizontalAssistTimer, this`releaseHorizontalAssistSign
      ensures State() == ReleaseAssists(config, old(State()), v)
    {
      if config.enableReleaseUpwardAssist && v.y > config.releaseUpwardAssistMinUpSpeed {
        releaseUpwardAssistTimer := Max(releaseUpwardAssistTimer, config.releaseUpwardAssistSeconds);
      } else {
        releaseUpwardAssistTimer := 0.0;
      }

      if config.enableReleaseHorizontalAssist && Abs(v.x) > config.releaseHorizontalAssistMinSpeed {
        releaseHorizontalAssistTimer := Max(releaseHorizontalAssistTimer, config.releaseHorizontalAssistSeconds);
        releaseHorizontalAssistSign := Sign(v.x);
      } else {
        releaseHorizontalAssistTimer := 0.0;
      }
    }

    /** `Tick`, once per frame: remember the steering input, run the motor lock
        down by the frame time `dt` (only while positive), release when jump is
        no longer held while swinging, and otherwise grab the remembered grip when
        jump is held and it is within reach. */
    method Tick(input: Intent, dt: real, gripPoint: Vec2)
      requires Valid()
      modifies this, rb`gravityScale, rb`velocity, nearbyGrip
      modifies hinge`enabled, hinge`connectedBody, hinge`connectedAnchor, hinge`anchor
      ensures Valid()
      ensures State() == TickStep(config, old(State()), input, dt, old(GripInReach()),
                                  old(hinge.connectedBody) != null, gripPoint)
      ensures nearbyGrip == old(nearbyGrip)
      ensures old(isSwinging) && !isSwinging && nearbyGrip != null
              ==> nearbyGrip.grabbedCount == CountAfter(old(nearbyGrip.grabbedCount), false)
      ensures !old(isSwinging) && isSwinging
              ==> nearbyGrip != null && hinge.enabled && hinge.connectedBody == nearbyGrip.body
                  && hinge.connectedAnchor == Zero2 && hinge.anchor == Zero2
                  && nearbyGrip.grabbedCount == old(nearbyGrip.grabbedCount) + 1
      ensures old(isSwinging) && !isSwinging ==> !hinge.enabled && hinge.connectedBody == null
      ensures isSwinging == old(isSwinging) ==> unchanged(hinge)
      ensures isSwinging == old(isSwinging) && nearbyGrip != null
              ==> nearbyGrip.grabbedCount == old(nearbyGrip.grabbedCount)
    {
      Steer(input, dt);
      if !input.jumpHeld && isSwinging {
        Detach(gripPoint);
        return;
      }

      if input.jumpHeld && !isSwinging && nearbyGrip != null {
        if GripInReach() {
          Attach(nearbyGrip);
        }
      }
    }

    /** The head of `Tick`: remember the steering input and run the motor lock
        down (only while positive). */
    method Steer(input: Intent, dt: real)
      requires Valid()
      modifies this`desiredHorizontal, this`releaseMotorLockTimer
      ensures Valid()
      ensures State() == old(State()).(desiredHorizontal := input.horizontal,
                                       lockTimer := if old(releaseMotorLockTimer) > 0.0
                                                    then old(releaseMotorLockTimer) - dt
                                                    else old(releaseMotorLockTimer))
    {
      desiredHorizontal := input.horizontal;
      if releaseMotorLockTimer > 0.0 {
        releaseMotorLockTimer := releaseMotorLockTimer - dt;
      }
    }

    /** `FixedUpdate`, once per physics step of length `dt`: shape or recover
        gravity, run the assist timers down, and return the forces applied. */
    method FixedUpdate(dt: real) returns (forces: seq<Force>)
      requires Valid()
      modifies this, rb`gravityScale
      ensures Valid()
      ensures State() == FixedStep(config, old(State()), dt)
      ensures forces == FixedForces(config, old(State()), rb.position, Anchor())
      ensures nearbyGrip == old(nearbyGrip)
    {
      ShapeGravity(dt);
      var assists := ApplyAssists(dt);
      var drive := Drive();
      forces := assists + drive;
    }

    /** The position of the hinge's connected body, if any. */
    function Anchor(): (a: Option<Vec2>)
      reads this, hinge, hinge.connectedBody
      ensures a.Some? <==> hinge.connectedBody != null
    {
      if hinge.connectedBody == null then None else Some(hinge.connectedBody.position)
    }

    /** The gravity half of `FixedUpdate`. */
    method ShapeGravity(dt: real)
      requires Valid()
      modifies this`releaseGravityRecoverElapsed, this`releaseGravityRecovering, rb`gravityScale
      ensures Valid()
      ensures State() == GravityStep(config, old(State()), dt)
    {
      if isSwinging && !(config.useVelocityBasedReleaseGravity && releaseGravityRecovering) {
        var m := GravityMultiplier(config, rb.velocity.y);
        rb.gravityScale := originalGravityScale * m;
      }

      if config.useVelocityBasedReleaseGravity && releaseGravityRecovering && !isSwinging {
        releaseGravityRecoverElapsed := releaseGravityRecoverElapsed + dt;
        var t := Clamp01(releaseGravityRecoverElapsed / releaseGravityRecoverDuration);
        rb.gravityScale := Lerp(0.0, releaseGravityDefault, t);
        if t >= 1.0 {
          rb.gravityScale := releaseGravityDefault;
          releaseGravityRecovering := false;
        }
      }
    }

    /** The release assists of `FixedUpdate` (counting their timers down) and
        the steering force inside the motor lock, all only while detached. */
    method ApplyAssists(dt: real) returns (forces: seq<Force>)
      requires Valid()
      modifies this`releaseUpwardAssistTimer, this`releaseHorizontalAssistTimer
      ensures Valid()
      ensures State() == AssistStep(config, old(State()), dt)
      ensures forces == UpAssistForces(config, old(State())) + SideAssistForces(config, old(State()))
                        + SteerForces(old(State()))
    {
      ghost var s0 := State();
      forces := [];
      if !isSwinging && config.enableReleaseUpwardAssist && releaseUpwardAssistTimer > 0.0 {
        forces := forces + [Push(Up, 1.0, config.releaseUpwardAssistForce)];
        releaseUpwardAssistTimer := releaseUpwardAssistTimer - dt;
        if releaseUpwardAssistTimer <= 0.0 {
          releaseUpwardAssistTimer := 0.0;
        }
      }
      assert forces == UpAssistForces(config, s0);

      if !isSwinging && config.enableReleaseHorizontalAssist && releaseHorizontalAssistTimer > 0.0 {
        forces := forces + [Push(Right, releaseHorizontalAssistSign, config.releaseHorizontalAssistForce)];
        releaseHorizontalAssistTimer := releaseHorizontalAssistTimer - dt;
        if releaseHorizontalAssistTimer <= 0.0 {
          releaseHorizontalAssistTimer := 0.0;
        }
        assert forces == UpAssistForces(config, s0) + SideAssistForces(config, s0);
      } else {
        assert SideAssistForces(config, s0) == [];
        assert forces == UpAssistForces(config, s0) + [];
      }

      if !isSwinging && releaseMotorLockTimer > 0.0 && Abs(desiredHorizontal) > 0.01 {
        forces := forces + [Push(Right, desiredHorizontal, 10.0)];
      } else {
        assert SteerForces(s0) == [];
        assert forces + [] == forces;
      }
    }

    /** The pendulum drive of `FixedUpdate`; changes nothing. */
    method Drive() returns (forces: seq<Force>)
      ensures forces == DriveForces(config, State(), rb.position, Anchor())
    {
      if !isSwinging || Abs(desiredHorizontal) < 0.01 {
        return [];
      }
      var connected := hinge.connectedBody;
      if connected == null {
        return [Push(Right, desiredHorizontal, config.swingDriveForce)];
      }
      var r := rb.position.Minus(connected.position);
      if r.SqrMagnitude() < 0.0001 {
        return [Push(Right, desiredHorizontal, config.swingDriveForce)];
      }
      var tangent := TangentDirection(r, desiredHorizontal);
      return [PushAlong(tangent, Abs(desiredHorizontal), config.swingDriveForce)];
    }
  }
}
