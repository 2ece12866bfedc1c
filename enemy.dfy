/** The base enemy (Assets/Scripts/Enemies/Enemy.cs): health, one death,
    recoil timing, being hit, and contact with the player (damage and a
    knockback that pushes the player away). */
module Enemies {
  import opened UnityMath
  import opened Engine
  import opened PlayerConfig
  import Motor
  import Health
  import Movement

  /** The counters a frame or a hit changes. */
  datatype EnemyState = EnemyState(health: real, isDead: bool, isRecoiling: bool, recoilTimer: real)

  /** `Update` runs `Die` exactly when the enemy is not yet dead and has no health left. */
  predicate Dies(s: EnemyState)
  {
    !s.isDead && s.health <= 0.0
  }

  /** `Update` on the counters: a death is recorded and ends the frame;
      otherwise a recoil runs its timer up to `recoilLength` and then stops. */
  function FrameStep(s: EnemyState, recoilLength: real, dt: real): (r: EnemyState)
    ensures r.health == s.health
    ensures r.isDead <==> s.isDead || s.health <= 0.0
    ensures Dies(s) ==> r.isRecoiling == s.isRecoiling && r.recoilTimer == s.recoilTimer
    ensures !Dies(s) && s.isRecoiling && s.recoilTimer < recoilLength ==>
              r.isRecoiling && r.recoilTimer == s.recoilTimer + dt
    ensures !Dies(s) && s.isRecoiling && s.recoilTimer >= recoilLength ==>
              !r.isRecoiling && r.recoilTimer == 0.0
    ensures !s.isRecoiling ==> !r.isRecoiling && r.recoilTimer == s.recoilTimer
  {
    if Dies(s) then s.(isDead := true)
    else if !s.isRecoiling then s
    else if s.recoilTimer < recoilLength then s.(recoilTimer := s.recoilTimer + dt)
    else s.(isRecoiling := false, recoilTimer := 0.0)
  }

  /** `EnemyHit` on the counters: a positive damage is subtracted; nothing else changes. */
  function HitStep(s: EnemyState, damageDone: real): (r: EnemyState)
    ensures damageDone <= 0.0 ==> r == s
    ensures damageDone > 0.0 ==> r == s.(health := s.health - damageDone)
  {
    if damageDone <= 0.0 then s else s.(health := s.health - damageDone)
  }

  /** What happens to an enemy between two inspections: a frame or a hit. */
  datatype EnemyEvent = Frame(dt: real) | Hit(damage: real)

  function EventStep(s: EnemyState, recoilLength: real, e: EnemyEvent): EnemyState
  {
    match e
    case Frame(dt) => FrameStep(s, recoilLength, dt)
    case Hit(d) => HitStep(s, d)
  }

  /** The number of times `Die` runs over a sequence of frames and hits. */
  function Deaths(s: EnemyState, recoilLength: real, es: seq<EnemyEvent>): nat
    decreases |es|
  {
    if es == [] then 0
    else (if es[0].Frame? && Dies(s) then 1 else 0) + Deaths(EventStep(s, recoilLength, es[0]), recoilLength, es[1..])
  }

  /** Once dead, an enemy never runs `Die` again, whatever happens to it. */
  lemma {:induction false} DeadDiesNoMore(s: EnemyState, recoilLength: real, es: seq<EnemyEvent>)
    requires s.isDead
    ensures Deaths(s, recoilLength, es) == 0
    decreases |es|
  {
    if es != [] {
      DeadDiesNoMore(EventStep(s, recoilLength, es[0]), recoilLength, es[1..]);
    }
  }

  /** `Die` runs at most once over any sequence of frames and hits. */
  lemma {:induction false} DiesAtMostOnce(s: EnemyState, recoilLength: real, es: seq<EnemyEvent>)
    ensures Deaths(s, recoilLength, es) <= 1
    decreases |es|
  {
    if es != [] {
      var next := EventStep(s, recoilLength, es[0]);
      if es[0].Frame? && Dies(s) {
        DeadDiesNoMore(next, recoilLength, es[1..]);
      } else {
        DiesAtMostOnce(next, recoilLength, es[1..]);
      }
    }
  }

  /** The direction from the enemy to the player before normalisation; when the
      two bodies nearly coincide, a unit step along x towards the player's
      side, the player counting as right of the enemy on a tie. */
  function Away(playerPos: Vec2, enemyPos: Vec2, playerX: real, enemyX: real): (a: Vec2)
    ensures a.SqrMagnitude() >= 0.0001
    ensures playerPos.Minus(enemyPos).SqrMagnitude() < 0.0001 ==>
              a == Vec2(if playerX >= enemyX then 1.0 else -1.0, 0.0)
  {
    var d := playerPos.Minus(enemyPos);
    if d.SqrMagnitude() < 0.0001 then Vec2(if playerX >= enemyX then 1.0 else -1.0, 0.0) else d
  }

  /** The knockback velocity for a direction `away` of length `len`: the
      horizontal part of the unit direction times `knockX`, and always `knockY`
      upwards. */
  function KnockVelocity(away: Vec2, len: real, knockX: real, knockY: real): (v: Vec2)
    requires len > 0.0
    ensures v.y == knockY
  {
    Vec2(away.x / len * knockX, knockY)
  }

  /** The knockback never pulls the player towards the enemy along x, and is
      at most `knockX` across. */
  lemma KnockbackPushesAway(away: Vec2, len: real, knockX: real, knockY: real)
    requires len > 0.0 && len * len == away.SqrMagnitude() && knockX >= 0.0
    ensures KnockVelocity(away, len, knockX, knockY).x * away.x >= 0.0
    ensures Abs(KnockVelocity(away, len, knockX, knockY).x) <= knockX
  {
    SameSide(away.x, len, knockX);
    UnitComponent(away.x, away.y, len);
    ScaledUnit(away.x / len, knockX);
  }

  /** `x / len * k` has the sign of `x` (or is zero) for positive `len` and non-negative `k`. */
  lemma SameSide(x: real, len: real, k: real)
    requires len > 0.0 && k >= 0.0
    ensures x / len * k * x >= 0.0
  {
    assert x / len * k * x == k * (x * x / len);
    assert x * x / len >= 0.0;
    MulMonotone(k, 0.0, x * x / len);
  }

  /** A fraction in [-1, 1] of a non-negative amount is at most that amount in size. */
  lemma ScaledUnit(u: real, k: real)
    requires Abs(u) <= 1.0 && k >= 0.0
    ensures Abs(u * k) <= k
  {
    MulMonotone(k, -1.0, u);
    MulMonotone(k, u, 1.0);
    assert -k <= k * u <= k;
    assert u * k == k * u;
  }

  /** A component of a vector divided by the vector's length is at most 1 in size. */
  lemma UnitComponent(x: real, y: real, len: real)
    requires len > 0.0 && len * len == x * x + y * y
    ensures Abs(x / len) <= 1.0
  {
    var a := Abs(x);
    assert a * a == x * x && y * y >= 0.0;
    if a > len {
      SquareGrows(len, a);
      assert false;
    }
    assert Abs(x) <= len;
    DivMonotone(Abs(x), len, len);
    assert len / len == 1.0;
    assert Abs(x / len) == Abs(x) / len;
  }

  /** Squaring is strictly increasing on positive reals. */
  lemma SquareGrows(p: real, q: real)
    requires 0.0 < p < q
    ensures p * p < q * q
  {
    MulMonotone(p, p, q);
    assert q * q - p * q == q * (q - p);
    assert q * (q - p) > 0.0;
  }

  /** The player object's body as a frame: nothing when it has none. */
  function Bodies(b: Rigidbody?): set<Rigidbody>
  {
    if b == null then {} else {b}
  }

  /** The player object's motor as a frame: nothing when it has none. */
  function Motors(m: Motor.PlayerMotor?): set<Motor.PlayerMotor>
  {
    if m == null then {} else {m}
  }

  class Enemy {
    var health: real
    const damage: real
    var isRecoiling: bool
    var recoilTimer: real
    const recoilLength: real
    const recoilFactor: real
    const applyCollisionKnockback: bool
    const collisionKnockbackX: real
    const collisionKnockbackY: real
    const collisionKnockbackLockSeconds: real
    var isDead: bool
    /** Set by `Die`: the object is destroyed at the end of the frame. */
    var destroyed: bool
    const rb: Rigidbody
    const transform: Transform

    /** The inspector values with `Awake` applied: alive, not destroyed. */
    constructor (health: real, damage: real, isRecoiling: bool, recoilLength: real, recoilFactor: real,
                 applyCollisionKnockback: bool, knockX: real, knockY: real, lockSeconds: real,
                 rb: Rigidbody, transform: Transform)
      ensures State() == EnemyState(health, false, isRecoiling, 0.0) && !destroyed
      ensures this.damage == damage && this.recoilLength == recoilLength && this.recoilFactor == recoilFactor
      ensures this.applyCollisionKnockback == applyCollisionKnockback
      ensures collisionKnockbackX == knockX && collisionKnockbackY == knockY
      ensures collisionKnockbackLockSeconds == lockSeconds
      ensures this.rb == rb && this.transform == transform
    {
      this.health := health;
      this.damage := damage;
      this.isRecoiling := isRecoiling;
      recoilTimer := 0.0;
      this.recoilLength := recoilLength;
      this.recoilFactor := recoilFactor;
      this.applyCollisionKnockback := applyCollisionKnockback;
      collisionKnockbackX := knockX;
      collisionKnockbackY := knockY;
      collisionKnockbackLockSeconds := lockSeconds;
      isDead := false;
      destroyed := false;
      this.rb := rb;
      this.transform := transform;
    }

    ghost function State(): EnemyState
      reads this
    {
      EnemyState(health, isDead, isRecoiling, recoilTimer)
    }

    /** `Update`: `dies` tells whether `Die` ran this frame. */
    method Update(dt: real) returns (dies: bool)
      modifies this`isDead, this`isRecoiling, this`recoilTimer, this`destroyed
      ensures dies <==> Dies(old(State()))
      ensures State() == FrameStep(old(State()), recoilLength, dt)
      ensures destroyed == (old(destroyed) || dies)
    {
      dies := false;
      if !isDead && health <= 0.0 {
        isDead := true;
        Die();
        dies := true;
        return;
      }
      if isRecoiling {
        if recoilTimer < recoilLength {
          recoilTimer := recoilTimer + dt;
        } else {
          isRecoiling := false;
          recoilTimer := 0.0;
        }
      }
    }

    /** `Die`: destroy the enemy. */
    method Die()
      modifies this`destroyed
      ensures destroyed
    {
      destroyed := true;
    }

    /** `EnemyHit`: `forces` are the pushes applied to the enemy's body. */
    method EnemyHit(damageDone: real, hitDirection: Vec2, hitForce: real) returns (forces: seq<Force>)
      modifies this`health
      ensures State() == HitStep(old(State()), damageDone)
      ensures forces == if damageDone > 0.0 && !isRecoiling then [Push(hitDirection, -hitForce, recoilFactor)] else []
    {
      forces := [];
      if damageDone <= 0.0 {
        return;
      }
      health := health - damageDone;
      if !isRecoiling {
        forces := [Push(hitDirection, -hitForce, recoilFactor)];
      }
    }

    /** `ApplyCollisionKnockback` on the player object's body (`null` when it
        has none) and motor. `len` is the length of the direction the body is
        pushed along. */
    method ApplyCollisionKnockback(playerRb: Rigidbody?, playerX: real, motor: Motor.PlayerMotor?, len: real)
      requires motor != null ==> motor.rb == playerRb
      requires applyCollisionKnockback && playerRb != null ==>
                 len > 0.0 && len * len == Away(playerRb.position, rb.position, playerX, transform.position.x).SqrMagnitude()
      modifies Bodies(playerRb)`velocity, Motors(motor)`knockbackLockTimer
      ensures !applyCollisionKnockback || playerRb == null ==> (playerRb != null ==> unchanged(playerRb)) && (motor != null ==> unchanged(motor))
      ensures applyCollisionKnockback && playerRb != null ==>
                playerRb.velocity == KnockVelocity(Away(old(playerRb.position), rb.position, playerX, transform.position.x),
                                                   len, collisionKnockbackX, collisionKnockbackY)
      ensures applyCollisionKnockback && playerRb != null && motor != null ==>
                motor.knockbackLockTimer == Max(old(motor.knockbackLockTimer), collisionKnockbackLockSeconds)
    {
      if !applyCollisionKnockback {
        return;
      }
      if playerRb == null {
        return;
      }
      var away := Away(playerRb.position, rb.position, playerX, transform.position.x);
      var knockVel := KnockVelocity(away, len, collisionKnockbackX, collisionKnockbackY);
      if motor != null {
        motor.ApplyKnockback(knockVel, collisionKnockbackLockSeconds);
        return;
      }
      playerRb.velocity := knockVel;
    }

    /** `EnemyAttack` on a touching object: a player that is neither invincible
        nor dead loses `damage` health and is knocked back. */
    method EnemyAttack(isPlayer: bool, invincible: bool, alive: bool, hm: Health.HealthManager,
                       playerRb: Rigidbody?, playerX: real, motor: Motor.PlayerMotor?, len: real)
      returns (attacked: bool)
      requires motor != null ==> motor.rb == playerRb
      requires applyCollisionKnockback && playerRb != null ==>
                 len > 0.0 && len * len == Away(playerRb.position, rb.position, playerX, transform.position.x).SqrMagnitude()
      modifies hm`healthAmount, Bodies(playerRb)`velocity, Motors(motor)`knockbackLockTimer
      ensures attacked <==> isPlayer && !invincible && alive
      ensures hm.healthAmount == if attacked then old(hm.healthAmount) - damage else old(hm.healthAmount)
      ensures !attacked ==> (playerRb != null ==> unchanged(playerRb)) && (motor != null ==> unchanged(motor))
      ensures attacked && applyCollisionKnockback && playerRb != null ==>
                playerRb.velocity == KnockVelocity(Away(old(playerRb.position), rb.position, playerX, transform.position.x),
                                                   len, collisionKnockbackX, collisionKnockbackY)
      ensures attacked && applyCollisionKnockback && motor != null ==>
                motor.knockbackLockTimer == Max(old(motor.knockbackLockTimer), collisionKnockbackLockSeconds)
    {
      attacked := isPlayer && !invincible && alive;
      if attacked {
        hm.TakeDamage(damage);
        ApplyCollisionKnockback(playerRb, playerX, motor, len);
      }
    }

    /** `OnCollisionStay2D` and `OnTriggerStay2D`: keep pushing a touching player out. */
    method OnPlayerStay(isPlayer: bool, playerRb: Rigidbody?, playerX: real, motor: Motor.PlayerMotor?, len: real)
      requires motor != null ==> motor.rb == playerRb
      requires applyCollisionKnockback && playerRb != null ==>
                 len > 0.0 && len * len == Away(playerRb.position, rb.position, playerX, transform.position.x).SqrMagnitude()
      modifies Bodies(playerRb)`velocity, Motors(motor)`knockbackLockTimer
      ensures !isPlayer || !applyCollisionKnockback || playerRb == null ==> (playerRb != null ==> unchanged(playerRb)) && (motor != null ==> unchanged(motor))
      ensures isPlayer && applyCollisionKnockback && playerRb != null ==>
                playerRb.velocity == KnockVelocity(Away(old(playerRb.position), rb.position, playerX, transform.position.x),
                                                   len, collisionKnockbackX, collisionKnockbackY)
      ensures isPlayer && applyCollisionKnockback && motor != null ==>
                motor.knockbackLockTimer == Max(old(motor.knockbackLockTimer), collisionKnockbackLockSeconds)
    {
      if !applyCollisionKnockback {
        return;
      }
      if !isPlayer {
        return;
      }
      ApplyCollisionKnockback(playerRb, playerX, motor, len);
    }

    /** `OnCollisionEnter2D`: a touching player that is not invincible is
        attacked and the game is slowed for a hit stop. A player without state
        flags makes the lookup throw (`threw`). */
    method OnCollisionEnter(isPlayer: bool, alive: bool, pm: Movement.PlayerMovement, hm: Health.HealthManager,
                            playerRb: Rigidbody?, playerX: real, motor: Motor.PlayerMotor?, len: real)
      returns (attacked: bool, threw: bool)
      requires motor != null ==> motor.rb == playerRb
      requires applyCollisionKnockback && playerRb != null ==>
                 len > 0.0 && len * len == Away(playerRb.position, rb.position, playerX, transform.position.x).SqrMagnitude()
      modifies hm`healthAmount, Bodies(playerRb)`velocity, Motors(motor)`knockbackLockTimer
      modifies pm.combat`restoreTimeSpeed, pm.combat`restoreTime, pm.combat.clock
      ensures threw <==> isPlayer && pm.pState == null
      ensures attacked <==> isPlayer && pm.pState != null && !pm.pState.invincible && alive
      ensures hm.healthAmount == if attacked then old(hm.healthAmount) - damage else old(hm.healthAmount)
      ensures isPlayer && pm.pState != null && !pm.pState.invincible ==>
                pm.combat.clock.timeScale == 0.25 && pm.combat.restoreTime && pm.combat.restoreTimeSpeed == 5.0
      ensures !(isPlayer && pm.pState != null && !pm.pState.invincible) ==> unchanged(pm.combat, pm.combat.clock)
      ensures !attacked ==> (playerRb != null ==> unchanged(playerRb)) && (motor != null ==> unchanged(motor))
      ensures attacked && applyCollisionKnockback && playerRb != null ==>
                playerRb.velocity == KnockVelocity(Away(old(playerRb.position), rb.position, playerX, transform.position.x),
                                                   len, collisionKnockbackX, collisionKnockbackY)
      ensures attacked && applyCollisionKnockback && motor != null ==>
                motor.knockbackLockTimer == Max(old(motor.knockbackLockTimer), collisionKnockbackLockSeconds)
    {
      attacked, threw := false, false;
      if !isPlayer {
        return;
      }
      if pm.pState == null {
        threw := true;
        return;
      }
      if !pm.pState.invincible {
        attacked := EnemyAttack(isPlayer, pm.pState.invincible, alive, hm, playerRb, playerX, motor, len);
        pm.HitStopTime(0.25, 5, 0.5);
      }
    }
  }
}
