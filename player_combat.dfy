/** `PlayerCombat` (Assets/Scripts/Player/PlayerCombat.cs): the melee attack and
    its direction, the recoil it causes over a bounded number of physics steps,
    and the hit-stop slow motion that eases back to normal speed.

    The recoil bookkeeping (the shared recoil flags, the step counters, the
    gravity-restore flag and the body's velocity and gravity) forms the
    `RecoilState` value, and `RecoilStep` specifies one physics step of it. */
module Combat {
  import opened UnityMath
  import opened Engine
  import opened Input
  import opened Text
  import opened PlayerConfig
  import opened Motor
  import opened Abilities

  /** The three strike directions `ChooseAttackDirection` distinguishes. */
  datatype AttackDirection = Side | Up | Down

  /** `TryAttack`'s choice: no attack without the press; level input strikes to
      the side, up strikes up, and down strikes down only in the air, as judged
      by a motor (without one a downward press does nothing). */
  function AttackFor(attackDown: bool, vertical: real, hasMotor: bool, grounded: bool): (d: Option<AttackDirection>)
    ensures !attackDown ==> d == None
    ensures attackDown && vertical == 0.0 ==> d == Some(Side)
    ensures attackDown && vertical > 0.0 ==> d == Some(Up)
    ensures attackDown && vertical < 0.0 ==>
              (d == Some(Down) <==> hasMotor && !grounded) && (d == None <==> !(hasMotor && !grounded))
  {
    if !attackDown then None
    else if vertical == 0.0 then Some(Side)
    else if vertical > 0.0 then Some(Up)
    else if hasMotor && !grounded && vertical < 0.0 then Some(Down)
    else None
  }

  /** Whether the configuration has an attack point for a direction. */
  predicate HasAttackPoint(c: MovementConfig, d: AttackDirection)
  {
    match d
    case Side => c.sideAttackPoint
    case Up => c.upAttackPoint
    case Down => c.downAttackPoint
  }

  /** `Hit` lands: a direction was chosen, it has an attack point, and the overlap
      box found at least one collider (`struck`). */
  predicate Lands(c: MovementConfig, d: Option<AttackDirection>, struck: bool)
  {
    d.Some? && HasAttackPoint(c, d.value) && struck
  }

  /** Sideways strikes recoil horizontally, up and down strikes vertically. */
  lemma RecoilAxis(c: MovementConfig, attackDown: bool, vertical: real, hasMotor: bool, grounded: bool, struck: bool)
    ensures var d := AttackFor(attackDown, vertical, hasMotor, grounded);
            Lands(c, d, struck) ==> (d.value == Side <==> vertical == 0.0)
  {
  }

  /** The recoil bookkeeping of one avatar. */
  datatype RecoilState = RecoilState(
    recoilingX: bool,
    recoilingY: bool,
    stepsX: int,
    stepsY: int,
    wasRecoilingY: bool,
    velocity: Vec2,
    gravityScale: real)

  /** The per-step facts `TryRecoil` reads: the vertical input, whether the
      avatar faces right (`localScale.x > 0`), and whether a motor reports
      ground. */
  datatype RecoilInput = RecoilInput(vertical: real, facingRight: bool, grounded: bool)

  /** The recoil velocity written in a step, before the counters run. */
  function RecoilVelocity(c: MovementConfig, s: RecoilState, i: RecoilInput): (v: Vec2)
    ensures s.recoilingX && !s.recoilingY ==> v.y == 0.0
    ensures s.recoilingX && i.facingRight ==> v.x == -c.recoilXSpeed
    ensures s.recoilingX && !i.facingRight ==> v.x == c.recoilXSpeed
    ensures !s.recoilingX ==> v.x == s.velocity.x
    ensures s.recoilingY ==> v.y == if i.vertical < 0.0 then c.recoilYSpeed else -c.recoilYSpeed
    ensures !s.recoilingX && !s.recoilingY ==> v == s.velocity
  {
    var afterX := if !s.recoilingX then s.velocity
                  else if i.facingRight then Vec2(-c.recoilXSpeed, 0.0)
                  else Vec2(c.recoilXSpeed, 0.0);
    if !s.recoilingY then afterX
    else if i.vertical < 0.0 then Vec2(afterX.x, c.recoilYSpeed)
    else Vec2(afterX.x, -c.recoilYSpeed)
  }

  /** `TryRecoil` as a change of state, with `captured` the gravity scale saved
      at `Init`. A vertical recoil zeroes gravity and marks it; gravity is put
      back on the first step after the vertical recoil ends and only then. Each
      axis counts its steps up to its limit and then stops; ground stops the
      vertical recoil at once. */
  function RecoilStep(c: MovementConfig, s: RecoilState, i: RecoilInput, captured: real): (r: RecoilState)
    ensures r.velocity == RecoilVelocity(c, s, i)
    ensures s.recoilingY ==> r.gravityScale == 0.0 && r.wasRecoilingY
    ensures !s.recoilingY && s.wasRecoilingY ==> r.gravityScale == captured && !r.wasRecoilingY
    ensures !s.recoilingY && !s.wasRecoilingY ==> r.gravityScale == s.gravityScale && !r.wasRecoilingY
    ensures r.recoilingX <==> s.recoilingX && s.stepsX < c.recoilXSteps
    ensures r.stepsX == if r.recoilingX then s.stepsX + 1 else 0
    ensures r.recoilingY <==> s.recoilingY && s.stepsY < c.recoilYSteps && !i.grounded
    ensures r.stepsY == if r.recoilingY then s.stepsY + 1 else 0
  {
    var v := RecoilVelocity(c, s, i);
    var g := if s.recoilingY then 0.0 else if s.wasRecoilingY then captured else s.gravityScale;
    var x := s.recoilingX && s.stepsX < c.recoilXSteps;
    var y := s.recoilingY && s.stepsY < c.recoilYSteps;
    RecoilState(x, y && !i.grounded, if x then s.stepsX + 1 else 0,
                if y && !i.grounded then s.stepsY + 1 else 0,
                s.recoilingY, v, g)
  }

  /** Physics steps in a row, with no new attack in between. */
  function RecoilRun(c: MovementConfig, s: RecoilState, ins: seq<RecoilInput>, captured: real): RecoilState
    decreases |ins|
  {
    if ins == [] then s else RecoilRun(c, RecoilStep(c, s, ins[0], captured), ins[1..], captured)
  }

  /** A horizontal recoil lasts at most `recoilXSteps + 1` steps: from a count of
      `stepsX`, any `recoilXSteps - stepsX + 1` further steps end it. */
  lemma {:induction false} HorizontalRecoilEnds(c: MovementConfig, s: RecoilState, ins: seq<RecoilInput>, captured: real)
    requires |ins| > MaxInt(0, c.recoilXSteps - s.stepsX)
    ensures !RecoilRun(c, s, ins, captured).recoilingX
    decreases |ins|
  {
    var r := RecoilStep(c, s, ins[0], captured);
    if !r.recoilingX {
      RecoilXStaysOff(c, r, ins[1..], captured);
    } else {
      HorizontalRecoilEnds(c, r, ins[1..], captured);
    }
  }

  lemma {:induction false} RecoilXStaysOff(c: MovementConfig, s: RecoilState, ins: seq<RecoilInput>, captured: real)
    requires !s.recoilingX
    ensures !RecoilRun(c, s, ins, captured).recoilingX
    decreases |ins|
  {
    if ins != [] {
      RecoilXStaysOff(c, RecoilStep(c, s, ins[0], captured), ins[1..], captured);
    }
  }

  /** A vertical recoil lasts at most `recoilYSteps + 1` steps, sooner on ground. */
  lemma {:induction false} VerticalRecoilEnds(c: MovementConfig, s: RecoilState, ins: seq<RecoilInput>, captured: real)
    requires |ins| > MaxInt(0, c.recoilYSteps - s.stepsY)
    ensures !RecoilRun(c, s, ins, captured).recoilingY
    decreases |ins|
  {
    var r := RecoilStep(c, s, ins[0], captured);
    if !r.recoilingY {
      RecoilYStaysOff(c, r, ins[1..], captured);
    } else {
      VerticalRecoilEnds(c, r, ins[1..], captured);
    }
  }

  lemma {:induction false} RecoilYStaysOff(c: MovementConfig, s: RecoilState, ins: seq<RecoilInput>, captured: real)
    requires !s.recoilingY
    ensures !RecoilRun(c, s, ins, captured).recoilingY
    decreases |ins|
  {
    if ins != [] {
      RecoilYStaysOff(c, RecoilStep(c, s, ins[0], captured), ins[1..], captured);
    }
  }

  /** Once no vertical recoil is running and gravity has been put back, the
      recoil never touches gravity again. */
  lemma {:induction false} GravityLeftAlone(c: MovementConfig, s: RecoilState, ins: seq<RecoilInput>, captured: real)
    requires !s.recoilingY && !s.wasRecoilingY
    ensures RecoilRun(c, s, ins, captured).gravityScale == s.gravityScale
    decreases |ins|
  {
    if ins != [] {
      GravityLeftAlone(c, RecoilStep(c, s, ins[0], captured), ins[1..], captured);
    }
  }

  /** `RestoreTimeScale` on the pair (time scale, restoring): a slowed clock
      speeds up by `dt * speed`; a clock at normal speed or faster is set to
      exactly 1 and restoring stops; nothing happens when not restoring. */
  function RestoreStep(timeScale: real, restoring: bool, speed: real, dt: real): (r: (real, bool))
    ensures !restoring ==> r == (timeScale, restoring)
    ensures restoring && timeScale < 1.0 ==> r == (timeScale + dt * speed, true)
    ensures restoring && timeScale >= 1.0 ==> r == (1.0, false)
  {
    if !restoring then (timeScale, restoring)
    else if timeScale < 1.0 then (timeScale + dt * speed, true)
    else (1.0, false)
  }

  /** `k` frames of the same length. */
  function RestoreRun(timeScale: real, restoring: bool, speed: real, dt: real, k: nat): (real, bool)
    decreases k
  {
    if k == 0 then (timeScale, restoring)
    else
      var (t, r) := RestoreStep(timeScale, restoring, speed, dt);
      RestoreRun(t, r, speed, dt, k - 1)
  }

  /** A hit stop ends: when `k` frames raise the clock by at least the missing
      amount, one frame more brings it back to exactly normal speed and stops
      the restoring. */
  lemma {:induction false} HitStopEnds(timeScale: real, speed: real, dt: real, k: nat)
    requires dt * speed > 0.0
    requires timeScale + k as real * (dt * speed) >= 1.0
    ensures RestoreRun(timeScale, true, speed, dt, k + 1) == (1.0, false)
    decreases k
  {
    if timeScale >= 1.0 {
      StaysRestored(speed, dt, k);
    } else {
      assert k > 0;
      var t := timeScale + dt * speed;
      assert t + (k - 1) as real * (dt * speed) >= 1.0;
      HitStopEnds(t, speed, dt, k - 1);
    }
  }

  lemma {:induction false} StaysRestored(speed: real, dt: real, k: nat)
    ensures RestoreRun(1.0, false, speed, dt, k) == (1.0, false)
    decreases k
  {
    if k > 0 {
      StaysRestored(speed, dt, k - 1);
    }
  }

  /** What `Tick` changes: the press, the time since the last attack, the shared
      flags and the time-scale restore. */
  datatype AttackState = AttackState(
    clicked: bool,
    timeSinceAttack: real,
    recoilingX: bool,
    recoilingY: bool,
    slowed: bool,
    invincible: bool,
    timeScale: real,
    restoreTime: bool)

  /** `Tick` as a change of state, with `restoreSpeed` the speed of the running
      restore: the press is recorded and restarts the attack clock, a landed hit
      raises the recoil flag of its axis, the restore runs one frame, and the
      slow and invincibility flags are left alone. */
  function AttackStep(c: MovementConfig, s: AttackState, input: Intent, dt: real, hasMotor: bool,
                      grounded: bool, struck: bool, restoreSpeed: real): (r: AttackState)
    ensures r.clicked == input.attackDown && r.timeSinceAttack == (if input.attackDown then 0.0 else dt)
    ensures r.slowed == s.slowed && r.invincible == s.invincible
    ensures (r.timeScale, r.restoreTime) == RestoreStep(s.timeScale, s.restoreTime, restoreSpeed, dt)
  {
    var d := AttackFor(input.attackDown, input.vertical, hasMotor, grounded);
    var landed := Lands(c, d, struck);
    var (scale, restoring) := RestoreStep(s.timeScale, s.restoreTime, restoreSpeed, dt);
    s.(clicked := input.attackDown, timeSinceAttack := if input.attackDown then 0.0 else dt,
       recoilingX := s.recoilingX || (landed && d.value == Side),
       recoilingY := s.recoilingY || (landed && d.value != Side),
       timeScale := scale, restoreTime := restoring)
  }

  /** An attack never lowers a recoil flag, and raises one only when it lands:
      the horizontal flag for a level strike, the vertical one otherwise. */
  lemma AttackRaisesOwnAxis(c: MovementConfig, s: AttackState, input: Intent, dt: real, hasMotor: bool,
                            grounded: bool, struck: bool, restoreSpeed: real)
    ensures var r := AttackStep(c, s, input, dt, hasMotor, grounded, struck, restoreSpeed);
            var d := AttackFor(input.attackDown, input.vertical, hasMotor, grounded);
            && (s.recoilingX ==> r.recoilingX) && (s.recoilingY ==> r.recoilingY)
            && (r.recoilingX != s.recoilingX <==> !s.recoilingX && Lands(c, d, struck) && input.vertical == 0.0)
            && (r.recoilingY != s.recoilingY <==> !s.recoilingY && Lands(c, d, struck) && input.vertical != 0.0)
            && (!input.attackDown ==> r.recoilingX == s.recoilingX && r.recoilingY == s.recoilingY)
  {
  }

  /** The abilities after a frame's attack: `OnEnemyHit` runs exactly when the
      hit lands. */
  function Refreshed(s: AbilityState, landed: bool): (r: AbilityState)
    ensures landed ==> r.canDoubleJump && r.canDash && r.timeSinceDash == s.timeSinceDash + 1.0
    ensures r.velocity == s.velocity && r.gravityScale == s.gravityScale && r.scaleX == s.scaleX
    ensures r.isWallJumping == s.isWallJumping && r.isDashing == s.isDashing && r.machine == s.machine
    ensures !landed ==> r == s
  {
    if landed then EnemyHitStep(s) else s
  }

  class PlayerCombat {
    const config: MovementConfig
    const rb: Rigidbody
    /** The avatar's transform, whose scale sign is the facing. */
    const transform: Transform
    const pState: PlayerStates?
    const motor: PlayerMotor?
    const clock: GameClock
    var abilities: PlayerAbilities?

    var playerClickedAttack: bool
    var timeSinceAttack: real
    var stepsXRecoiled: int
    var stepsYRecoiled: int
    var restoreTime: bool
    var restoreTimeSpeed: real
    /** The body's gravity scale when `Init` ran. */
    var gravity: real
    var wasRecoilingY: bool

    /** The component with `Init` applied: it remembers the body's gravity. */
    constructor (config: MovementConfig, pState: PlayerStates?, motor: PlayerMotor?, rb: Rigidbody,
                 transform: Transform, clock: GameClock)
      ensures this.config == config && this.pState == pState && this.motor == motor
      ensures this.rb == rb && this.transform == transform && this.clock == clock
      ensures abilities == null && gravity == rb.gravityScale
      ensures stepsXRecoiled == 0 && stepsYRecoiled == 0 && !wasRecoilingY && !restoreTime
    {
      this.config := config;
      this.pState := pState;
      this.motor := motor;
      this.rb := rb;
      this.transform := transform;
      this.clock := clock;
      abilities := null;
      playerClickedAttack := false;
      timeSinceAttack := 0.0;
      stepsXRecoiled := 0;
      stepsYRecoiled := 0;
      restoreTime := false;
      restoreTimeSpeed := 0.0;
      gravity := rb.gravityScale;
      wasRecoilingY := false;
    }

    method SetAbilities(a: PlayerAbilities?)
      modifies this`abilities
      ensures abilities == a
    {
      abilities := a;
    }

    ghost function RecoilSnapshot(): RecoilState
      requires pState != null
      reads this, pState, rb
    {
      RecoilState(pState.recoilingX, pState.recoilingY, stepsXRecoiled, stepsYRecoiled,
                  wasRecoilingY, rb.velocity, rb.gravityScale)
    }

    /** The attack bookkeeping, as a value. */
    ghost function AttackSnapshot(): AttackState
      requires pState != null
      reads this, pState, clock
    {
      AttackState(playerClickedAttack, timeSinceAttack, pState.recoilingX, pState.recoilingY,
                  pState.slowed, pState.invincible, clock.timeScale, restoreTime)
    }

    /** `Tick`, with `dt` the frame time, `grounded` the motor's ground probe and
        `struck` whether the attack box found anything. The invincibility flash
        is rendering only and not modelled. */
    method Tick(input: Intent, dt: real, grounded: bool, struck: bool)
      modifies this`playerClickedAttack, this`timeSinceAttack, this`restoreTime
      modifies pState, abilities, clock
      ensures pState == null ==> unchanged(this, clock) && (abilities != null ==> unchanged(abilities))
      ensures pState != null ==>
                AttackSnapshot() == AttackStep(config, old(AttackSnapshot()), input, dt, motor != null, grounded,
                                               struck, restoreTimeSpeed)
      ensures pState != null && abilities != null ==>
                abilities.State()
                == Refreshed(old(abilities.State()),
                             Lands(config, AttackFor(input.attackDown, input.vertical, motor != null, grounded), struck))
    {
      if pState == null {
        return;
      }
      playerClickedAttack := input.attackDown;
      TryAttack(input.vertical, dt, grounded, struck);
      RestoreTimeScale(dt);
    }

    /** What a frame's attack left on the shared flags: a landed hit raises the
        recoil flag of its axis. */
    ghost predicate Struck(d: Option<AttackDirection>, struck: bool, oldX: bool, oldY: bool)
      requires pState != null
      reads this, pState
    {
      var landed := Lands(config, d, struck);
      && pState.recoilingX == (oldX || (landed && d.value == Side))
      && pState.recoilingY == (oldY || (landed && d.value != Side))
    }

    /** `FixedTick`: one recoil step, skipped without the shared flags. */
    method FixedTick(vertical: real, grounded: bool)
      modifies this`stepsXRecoiled, this`stepsYRecoiled, this`wasRecoilingY
      modifies pState, rb`velocity, rb`gravityScale
      ensures pState == null ==> unchanged(this, rb)
      ensures pState != null ==>
                RecoilSnapshot() == RecoilStep(config, old(RecoilSnapshot()),
                  RecoilInput(vertical, old(transform.scaleX) > 0.0, motor != null && grounded), gravity)
    {
      if pState == null {
        return;
      }
      TryRecoil(vertical, grounded);
    }

    /** `HitStopTime`: the clock takes the new speed at once and, because the
        coroutine sets the flag before its first wait, restoring starts at once
        whatever the delay. */
    method HitStopTime(newTimeScale: real, restoreSpeed: int, delay: real)
      modifies this`restoreTimeSpeed, this`restoreTime, clock
      ensures clock.timeScale == newTimeScale && restoreTime
      ensures restoreTimeSpeed == restoreSpeed as real
    {
      restoreTimeSpeed := restoreSpeed as real;
      clock.timeScale := newTimeScale;
      if delay > 0.0 {
        StartTimeAgain();
      } else {
        restoreTime := true;
      }
    }

    /** The `StartTimeAgain` coroutine up to its wait, which is all it does. */
    method StartTimeAgain()
      modifies this`restoreTime
      ensures restoreTime
    {
      restoreTime := true;
    }

    method RestoreTimeScale(dt: real)
      modifies this`restoreTime, clock
      ensures clock.timeScale == RestoreStep(old(clock.timeScale), old(restoreTime), restoreTimeSpeed, dt).0
      ensures restoreTime == RestoreStep(old(clock.timeScale), old(restoreTime), restoreTimeSpeed, dt).1
    {
      if !restoreTime {
        return;
      }
      if clock.timeScale < 1.0 {
        clock.timeScale := clock.timeScale + dt * restoreTimeSpeed;
      } else {
        clock.timeScale := 1.0;
        restoreTime := false;
      }
    }

    /** `TryAttack` with `ChooseAttackDirection`, `AttackDirection` and `Hit`: a
        landed hit raises the recoil flag of its axis and gives the abilities
        their air jump and dash back. */
    method TryAttack(vertical: real, dt: real, grounded: bool, struck: bool)
      requires pState != null
      modifies this`timeSinceAttack, pState`recoilingX, pState`recoilingY, abilities
      ensures timeSinceAttack == if playerClickedAttack then 0.0 else dt
      ensures pState.slowed == old(pState.slowed) && pState.invincible == old(pState.invincible)
      ensures var d := AttackFor(playerClickedAttack, vertical, motor != null, grounded);
              && Struck(d, struck, old(pState.recoilingX), old(pState.recoilingY))
              && (abilities != null ==> abilities.State() == Refreshed(old(abilities.State()), Lands(config, d, struck)))
              && (abilities != null && !Lands(config, d, struck) ==> unchanged(abilities))
    {
      timeSinceAttack := dt;
      if !playerClickedAttack {
        return;
      }
      timeSinceAttack := 0.0;
      var d: Option<AttackDirection> := None;
      if vertical == 0.0 {
        d := Some(Side);
      } else if vertical > 0.0 {
        d := Some(Up);
      } else if motor != null && !grounded && vertical < 0.0 {
        d := Some(Down);
      }
      if d.Some? && HasAttackPoint(config, d.value) && struck {
        if d.value == Side {
          pState.recoilingX := true;
        } else {
          pState.recoilingY := true;
        }
        if abilities != null {
          abilities.OnEnemyHit();
        }
      }
    }

    method TryRecoil(vertical: real, grounded: bool)
      requires pState != null
      modifies this`stepsXRecoiled, this`stepsYRecoiled, this`wasRecoilingY
      modifies pState, rb`velocity, rb`gravityScale
      ensures RecoilSnapshot() == RecoilStep(config, old(RecoilSnapshot()),
                RecoilInput(vertical, old(transform.scaleX) > 0.0, motor != null && grounded), gravity)
    {
      if pState.recoilingX {
        var facingRight := transform.scaleX > 0.0;
        rb.velocity := if facingRight then Vec2(-config.recoilXSpeed, 0.0) else Vec2(config.recoilXSpeed, 0.0);
      }
      if pState.recoilingY {
        rb.gravityScale := 0.0;
        rb.velocity := if vertical < 0.0 then Vec2(rb.velocity.x, config.recoilYSpeed)
                       else Vec2(rb.velocity.x, -config.recoilYSpeed);
        wasRecoilingY := true;
      } else if wasRecoilingY {
        rb.gravityScale := gravity;
        wasRecoilingY := false;
      }
      if pState.recoilingX && stepsXRecoiled < config.recoilXSteps {
        stepsXRecoiled := stepsXRecoiled + 1;
      } else {
        StopRecoilX();
      }
      if pState.recoilingY && stepsYRecoiled < config.recoilYSteps {
        stepsYRecoiled := stepsYRecoiled + 1;
      } else {
        StopRecoilY();
      }
      if motor != null && grounded {
        StopRecoilY();
      }
    }

    method StopRecoilX()
      requires pState != null
      modifies this`stepsXRecoiled, pState`recoilingX
      ensures stepsXRecoiled == 0 && !pState.recoilingX
    {
      stepsXRecoiled := 0;
      pState.recoilingX := false;
    }

    method StopRecoilY()
      requires pState != null
      modifies this`stepsYRecoiled, pState`recoilingY
      ensures stepsYRecoiled == 0 && !pState.recoilingY
    {
      stepsYRecoiled := 0;
      pState.recoilingY := false;
    }
  }
}
