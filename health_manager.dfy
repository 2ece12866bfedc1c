/** The player's health (Assets/Scripts/HealthManager.cs): damage, healing,
    death, respawn at the starting point and the health bar. */
module Health {
  import opened UnityMath
  import opened Engine
  import Movement

  /** `baseHealth`: the starting and respawn health. */
  const BaseHealth := 100.0
  /** The debug keys: Return deals 20, Backspace heals 10. */
  const DebugDamage := 20.0
  const DebugHeal := 10.0

  /** `Heal`'s new health: the sum clamped into [0, 100]. */
  function Healed(health: real, amount: real): (r: real)
    ensures 0.0 <= r <= 100.0
    ensures 0.0 <= health + amount <= 100.0 ==> r == health + amount
    ensures health + amount > 100.0 ==> r == 100.0
    ensures health + amount < 0.0 ==> r == 0.0
  {
    Clamp(health + amount, 0.0, 100.0)
  }

  /** What the bar shows for a health value: `health / 100`, which the image's
      fill amount keeps inside [0, 1]. */
  function BarFill(health: real): (r: real)
    ensures 0.0 <= r <= 1.0
    ensures 0.0 <= health <= 100.0 ==> r * 100.0 == health
    ensures health <= 0.0 ==> r == 0.0
    ensures health >= 100.0 ==> r == 1.0
  {
    Clamp01(health / 100.0)
  }

  /** The health after the debug keys of one frame. */
  function DebugKeys(health: real, debugMode: bool, returnDown: bool, backspaceDown: bool): (r: real)
    ensures !debugMode || (!returnDown && !backspaceDown) ==> r == health
    ensures debugMode && backspaceDown ==> 0.0 <= r <= 100.0
    ensures debugMode && returnDown && !backspaceDown ==> r == health - DebugDamage
  {
    var afterDamage := if debugMode && returnDown then health - DebugDamage else health;
    if debugMode && backspaceDown then Healed(afterDamage, DebugHeal) else afterDamage
  }

  /** The health at the end of a frame: the debug keys, then a fall out of the
      world restores the base health. */
  function FrameHealth(health: real, debugMode: bool, returnDown: bool, backspaceDown: bool,
                       fell: bool): (r: real)
    ensures fell ==> r == BaseHealth
    ensures !fell ==> r == DebugKeys(health, debugMode, returnDown, backspaceDown)
  {
    if fell then BaseHealth else DebugKeys(health, debugMode, returnDown, backspaceDown)
  }

  /** The health after `hits` frames of `Update` in debug mode with only the
      damage key down and no fall. */
  function DamagedBy(health: real, hits: nat): (r: real)
    ensures hits > 0 ==> r < health
    decreases hits
  {
    if hits == 0 then health else DamagedBy(FrameHealth(health, true, true, false, false), hits - 1)
  }

  /** Damage is not clamped: with no heal in between, enough damage frames take
      the health to zero or below, so the frame after them schedules a respawn. */
  lemma {:induction false} DamageReachesDeath(health: real, hits: nat)
    requires health <= DebugDamage * (hits as real)
    ensures DamagedBy(health, hits) <= 0.0
    decreases hits
  {
    if hits > 0 {
      DamageReachesDeath(FrameHealth(health, true, true, false, false), hits - 1);
    }
  }

  class HealthManager {
    var healthAmount: real
    var respawnCoords: Vec3
    /** The object's own transform and body. */
    const transform: Transform
    const body: Rigidbody
    const healthBar: FillImage
    const deathFloorHeight: real
    /** The player's movement component, found in `Start`. */
    const pm: Movement.PlayerMovement

    /** The field initialiser and `Start`: full health, and the current position
        remembered as the respawn point. */
    constructor (transform: Transform, body: Rigidbody, healthBar: FillImage,
                 deathFloorHeight: real, pm: Movement.PlayerMovement)
      ensures healthAmount == BaseHealth && respawnCoords == transform.position
      ensures this.transform == transform && this.body == body && this.healthBar == healthBar
      ensures this.deathFloorHeight == deathFloorHeight && this.pm == pm
    {
      healthAmount := BaseHealth;
      respawnCoords := transform.position;
      this.transform := transform;
      this.body := body;
      this.healthBar := healthBar;
      this.deathFloorHeight := deathFloorHeight;
      this.pm := pm;
    }

    /** `TakeDamage`: no lower bound. */
    method TakeDamage(amount: real)
      modifies this`healthAmount
      ensures healthAmount == old(healthAmount) - amount
    {
      healthAmount := healthAmount - amount;
    }

    /** `Heal`: never above 100 nor below 0. */
    method Heal(amount: real)
      modifies this`healthAmount
      ensures healthAmount == Healed(old(healthAmount), amount)
    {
      healthAmount := healthAmount + amount;
      healthAmount := Clamp(healthAmount, 0.0, 100.0);
    }

    /** `UpdateHealthbar`. */
    method UpdateHealthbar()
      modifies healthBar
      ensures healthBar.fillAmount == BarFill(healthAmount)
    {
      healthBar.fillAmount := Clamp01(healthAmount / 100.0);
    }

    /** `Die`: the player stops obeying input (the death animation is not modelled). */
    method Die()
      modifies pm`ignoreUserInput
      ensures pm.ignoreUserInput
    {
      pm.ignoreUserInput := true;
    }

    /** `Respawn`: back to the remembered point with full health. Input stays
        ignored if `Die` turned it off. */
    method Respawn()
      modifies this`healthAmount, transform`position
      ensures transform.position == respawnCoords && healthAmount == BaseHealth
    {
      transform.position := respawnCoords;
      healthAmount := BaseHealth;
    }

    /** `Update`: a death schedules a respawn one second later (returned, not
        run), the debug keys change the health, a fall below the floor height
        stops the body and respawns at once, and the bar is refreshed. */
    method Update(debugMode: bool, returnDown: bool, backspaceDown: bool) returns (respawnScheduled: bool)
      modifies this`healthAmount, transform`position, body`velocity, healthBar, pm`ignoreUserInput
      ensures respawnScheduled <==> old(healthAmount) <= 0.0
      ensures pm.ignoreUserInput == (old(pm.ignoreUserInput) || respawnScheduled)
      ensures healthAmount == FrameHealth(old(healthAmount), debugMode, returnDown, backspaceDown,
                                          old(transform.position.y) <= deathFloorHeight)
      ensures old(transform.position.y) <= deathFloorHeight ==>
                transform.position == respawnCoords && body.velocity == Zero2
      ensures old(transform.position.y) > deathFloorHeight ==>
                transform.position == old(transform.position) && body.velocity == old(body.velocity)
      ensures healthBar.fillAmount == BarFill(healthAmount)
    {
      respawnScheduled := false;
      if healthAmount <= 0.0 {
        Die();
        respawnScheduled := true;
      }
      if debugMode {
        if returnDown {
          TakeDamage(DebugDamage);
        }
        if backspaceDown {
          Heal(DebugHeal);
        }
      }
      if transform.position.y <= deathFloorHeight {
        body.velocity := Zero2;
        Respawn();
      }
      UpdateHealthbar();
    }
  }

  /** A frame that begins at or below zero health ends at full health only
      through a fall; otherwise, unless the heal key is pressed, the health is
      still not positive, so the next frame schedules another respawn. */
  lemma FrameAfterDeath(health: real, debugMode: bool, returnDown: bool,
                        backspaceDown: bool, fell: bool)
    requires health <= 0.0
    ensures fell ==> FrameHealth(health, debugMode, returnDown, backspaceDown, fell) == BaseHealth
    ensures !fell && (!debugMode || !backspaceDown) ==>
              FrameHealth(health, debugMode, returnDown, backspaceDown, fell) <= 0.0
  {
  }
}
