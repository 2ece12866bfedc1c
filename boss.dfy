/** The boss (Assets/Scripts/Enemies/BossScript.cs): an enemy riding a bomb
    that launches itself towards the player at regular intervals, slams down
    after the apex, turns to face the player and is forced to launch when hit.
    The enemy part it inherits is held as a component here. */
module Boss {
  import opened UnityMath
  import opened Engine
  import Enemies

  /** `jumpForce`, `jumpFrequency` and `turnDistance`. */
  const JumpForce := 25.0
  const JumpFrequency := 2.0
  const TurnDistance := 2.0
  /** The jump timer's initial value and the value a hit sets it to. */
  const InitialJumpTimer := 1.0
  const HitJumpTimer := 100.0

  /** `gravityModifier`: the slam gravity below a falling speed of 5, regular otherwise. */
  function GravityFor(vy: real): (g: real)
    ensures g == 100.0 <==> vy < -5.0
    ensures g == 5.0 <==> vy >= -5.0
  {
    if vy < -5.0 then 100.0 else 5.0
  }

  /** `changeDirection`'s test: the player is more than `TurnDistance` away on
      the side the boss is not facing. */
  predicate Turns(facingLeft: bool, playerX: real, bossX: real)
  {
    (playerX > bossX + TurnDistance && facingLeft) || (playerX < bossX - TurnDistance && !facingLeft)
  }

  /** A turn happens only while the boss faces away from the player, and a player within
      `TurnDistance` of the boss never causes one. */
  lemma TurnFacesPlayer(facingLeft: bool, playerX: real, bossX: real)
    ensures Turns(facingLeft, playerX, bossX) ==> (facingLeft <==> playerX > bossX)
    ensures bossX - TurnDistance <= playerX <= bossX + TurnDistance ==> !Turns(facingLeft, playerX, bossX)
  {
  }

  /** The launch timer and the bomb's velocity as `launchOffGround` and the
      timer increment leave them, for a step of `dt` with the player `dx` to
      the right. */
  datatype Launch = Launch(timer: real, velocity: Vec2, launched: bool)

  function LaunchStep(timer: real, velocity: Vec2, dx: real, dt: real): (r: Launch)
    ensures r.launched <==> timer > JumpFrequency
    ensures r.launched ==> r.velocity == Vec2(velocity.x + dx, velocity.y + JumpForce) && r.timer == dt
    ensures !r.launched ==> r.velocity == velocity && r.timer == timer + dt
  {
    if timer > JumpFrequency then Launch(dt, Vec2(velocity.x + dx, velocity.y + JumpForce), true)
    else Launch(timer + dt, velocity, false)
  }

  function Sum(dts: seq<real>): real
    decreases |dts|
  {
    if dts == [] then 0.0 else dts[0] + Sum(dts[1..])
  }

  /** The number of launches over a sequence of fixed steps with no hit. */
  function Launches(timer: real, dts: seq<real>): nat
    decreases |dts|
  {
    if dts == [] then 0
    else (if timer > JumpFrequency then 1 else 0) + Launches(LaunchStep(timer, Zero2, 0.0, dts[0]).timer, dts[1..])
  }

  /** With non-negative steps, no launch happens while the timer plus the time
      elapsed before the last step stays within `JumpFrequency`: launches are
      spaced at least that far apart unless a hit intervenes. */
  lemma {:induction false} NoEarlyLaunch(timer: real, dts: seq<real>)
    requires forall i :: 0 <= i < |dts| ==> dts[i] >= 0.0
    requires dts != [] ==> timer + Sum(dts[..|dts| - 1]) <= JumpFrequency
    ensures Launches(timer, dts) == 0
    decreases |dts|
  {
    if dts != [] {
      var rest := dts[1..];
      SumNonNegative(dts[..|dts| - 1]);
      assert timer <= JumpFrequency;
      if rest != [] {
        assert dts[..|dts| - 1] == [dts[0]] + rest[..|rest| - 1];
        assert Sum(dts[..|dts| - 1]) == dts[0] + Sum(rest[..|rest| - 1]);
      }
      NoEarlyLaunch(timer + dts[0], rest);
    }
  }

  lemma {:induction false} SumNonNegative(dts: seq<real>)
    requires forall i :: 0 <= i < |dts| ==> dts[i] >= 0.0
    ensures Sum(dts) >= 0.0
    decreases |dts|
  {
    if dts != [] {
      SumNonNegative(dts[1..]);
    }
  }

  /** After a hit the next fixed step launches, whatever the timer was. */
  lemma HitForcesLaunch(velocity: Vec2, dx: real, dt: real)
    ensures LaunchStep(HitJumpTimer, velocity, dx, dt).launched
  {
  }

  class BossScript {
    /** The enemy part: health, death and recoil. */
    const enemy: Enemies.Enemy
    /** The bomb's body and transform, whose scale sign is the facing. */
    const bomb: Rigidbody
    const bombTransform: Transform
    var timeSinceLastJump: real
    var facingLeft: bool

    /** The field initialisers and `Start`. */
    constructor (enemy: Enemies.Enemy, bomb: Rigidbody, bombTransform: Transform)
      ensures this.enemy == enemy && this.bomb == bomb && this.bombTransform == bombTransform
      ensures timeSinceLastJump == InitialJumpTimer && facingLeft
    {
      this.enemy := enemy;
      this.bomb := bomb;
      this.bombTransform := bombTransform;
      timeSinceLastJump := InitialJumpTimer;
      facingLeft := true;
    }

    /** `Update`: set the gravity from the bomb's vertical speed, then turn
        towards the player at `playerX`. */
    method Update(playerX: real)
      modifies bomb`gravityScale, this`facingLeft, bombTransform`scaleX
      ensures bomb.gravityScale == GravityFor(bomb.velocity.y)
      ensures facingLeft == (old(facingLeft) != Turns(old(facingLeft), playerX, enemy.transform.position.x))
      ensures bombTransform.scaleX == if Turns(old(facingLeft), playerX, enemy.transform.position.x)
                                      then -old(bombTransform.scaleX) else old(bombTransform.scaleX)
      ensures playerX > enemy.transform.position.x + TurnDistance ==> !facingLeft
      ensures playerX < enemy.transform.position.x - TurnDistance ==> facingLeft
    {
      GravityModifier();
      ChangeDirection(playerX);
    }

    /** `gravityModifier`. */
    method GravityModifier()
      modifies bomb`gravityScale
      ensures bomb.gravityScale == GravityFor(bomb.velocity.y)
    {
      if bomb.velocity.y < -5.0 {
        bomb.gravityScale := 100.0;
      } else {
        bomb.gravityScale := 5.0;
      }
    }

    /** `changeDirection`: a turn toggles the facing and mirrors the bomb. */
    method ChangeDirection(playerX: real)
      modifies this`facingLeft, bombTransform`scaleX
      ensures facingLeft == (old(facingLeft) != Turns(old(facingLeft), playerX, enemy.transform.position.x))
      ensures bombTransform.scaleX == if Turns(old(facingLeft), playerX, enemy.transform.position.x)
                                      then -old(bombTransform.scaleX) else old(bombTransform.scaleX)
    {
      var bossX := enemy.transform.position.x;
      if (playerX > bossX + TurnDistance && facingLeft) || (playerX < bossX - TurnDistance && !facingLeft) {
        facingLeft := !facingLeft;
        bombTransform.scaleX := bombTransform.scaleX * -1.0;
      }
    }

    /** `FixedUpdate`: the enemy part's frame (`dies` when it ran `Die`), a
        launch towards the player at `playerPos` when the timer has run out,
        and the timer advanced by `dt`. */
    method FixedUpdate(dt: real, playerPos: Vec3) returns (dies: bool)
      modifies enemy`isDead, enemy`isRecoiling, enemy`recoilTimer, enemy`destroyed, bomb`velocity, this`timeSinceLastJump
      ensures dies <==> Enemies.Dies(old(enemy.State()))
      ensures enemy.State() == Enemies.FrameStep(old(enemy.State()), enemy.recoilLength, dt)
      ensures Launch(timeSinceLastJump, bomb.velocity, old(timeSinceLastJump) > JumpFrequency)
              == LaunchStep(old(timeSinceLastJump), old(bomb.velocity), playerPos.x - enemy.transform.position.x, dt)
    {
      dies := enemy.Update(dt);
      LaunchOffGround(playerPos);
      timeSinceLastJump := timeSinceLastJump + dt;
    }

    /** `launchOffGround`. */
    method LaunchOffGround(playerPos: Vec3)
      modifies bomb`velocity, this`timeSinceLastJump
      ensures old(timeSinceLastJump) > JumpFrequency ==>
                timeSinceLastJump == 0.0
                && bomb.velocity == Vec2(old(bomb.velocity.x) + (playerPos.x - enemy.transform.position.x),
                                         old(bomb.velocity.y) + JumpForce)
      ensures old(timeSinceLastJump) <= JumpFrequency ==>
                timeSinceLastJump == old(timeSinceLastJump) && bomb.velocity == old(bomb.velocity)
    {
      if timeSinceLastJump > JumpFrequency {
        var direction := Vec2(playerPos.x - enemy.transform.position.x, playerPos.y - enemy.transform.position.y);
        bomb.velocity := Vec2(bomb.velocity.x + direction.x, bomb.velocity.y + JumpForce);
        timeSinceLastJump := 0.0;
      }
    }

    /** The `EnemyHit` override: no check on the damage, recoil pushes the bomb
        (`forces`), and the next fixed step launches. */
    method EnemyHit(damageDone: real, hitDirection: Vec2, hitForce: real) returns (forces: seq<Force>)
      modifies enemy`health, this`timeSinceLastJump
      ensures enemy.health == old(enemy.health) - damageDone
      ensures forces == if enemy.isRecoiling then [] else [Push(hitDirection, -hitForce, enemy.recoilFactor)]
      ensures timeSinceLastJump == HitJumpTimer && timeSinceLastJump > JumpFrequency
    {
      enemy.health := enemy.health - damageDone;
      forces := [];
      if !enemy.isRecoiling {
        forces := [Push(hitDirection, -hitForce, enemy.recoilFactor)];
      }
      timeSinceLastJump := HitJumpTimer;
    }
  }
}
