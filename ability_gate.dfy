/** A door in the level that opens once the player holds an ability and a
    keyfile (Assets/Scripts/World/AbilityGate.cs). */
module AbilityGates {
  import opened Text
  import opened Engine
  import opened World
  import opened Progress
  import opened Gates

  /** The lock decision of `Refresh`: locked without progress, otherwise
      unlocked exactly when each non-blank requirement is held. */
  function Unlocked(requiredAbilityId: NString, requiredKeyfileId: NString, progress: PlayerProgress?): (b: bool)
    reads progress
    ensures progress == null ==> !b
    ensures progress != null ==>
              (b <==> Meets(requiredAbilityId, progress.unlockedAbilitySet)
                      && Meets(requiredKeyfileId, progress.keyfileSet))
  {
    var present := progress != null;
    var abilityOk := present && !(!IsBlank(requiredAbilityId) && !progress.HasAbility(requiredAbilityId));
    abilityOk && !(!IsBlank(requiredKeyfileId) && !progress.HasKeyfile(requiredKeyfileId))
  }

  /** The gate applies the same rule as a room exit with the same requirements. */
  lemma SameRuleAsExits(requiredAbilityId: NString, requiredKeyfileId: NString, progress: PlayerProgress?, to: NString)
    ensures Unlocked(requiredAbilityId, requiredKeyfileId, progress)
            == CanTraverse(RoomExit(to, requiredAbilityId, requiredKeyfileId), progress)
  {
  }

  class AbilityGate {
    const requiredAbilityId: NString
    const requiredKeyfileId: NString
    /** The collider that blocks the player; `Awake` falls back to the gate's
        own collider, which the component requires. */
    const blockingCollider: Collider
    const lockedVisual: SceneObject?
    const unlockedVisual: SceneObject?
    const progress: PlayerProgress?

    /** The serialized fields with `Awake` applied. */
    constructor (requiredAbilityId: NString, requiredKeyfileId: NString, blockingCollider: Collider?,
                 ownCollider: Collider, lockedVisual: SceneObject?, unlockedVisual: SceneObject?,
                 progress: PlayerProgress?)
      ensures this.blockingCollider == if blockingCollider != null then blockingCollider else ownCollider
      ensures this.requiredAbilityId == requiredAbilityId && this.requiredKeyfileId == requiredKeyfileId
      ensures this.lockedVisual == lockedVisual && this.unlockedVisual == unlockedVisual
      ensures this.progress == progress
    {
      this.requiredAbilityId := requiredAbilityId;
      this.requiredKeyfileId := requiredKeyfileId;
      this.blockingCollider := if blockingCollider != null then blockingCollider else ownCollider;
      this.lockedVisual := lockedVisual;
      this.unlockedVisual := unlockedVisual;
      this.progress := progress;
    }

    /** `Refresh`: the collider blocks exactly while locked; the locked visual
        shows exactly while locked and the unlocked one exactly while unlocked
        (one object used as both ends up showing the unlocked state, written
        last). */
    method Refresh()
      modifies blockingCollider`enabled, lockedVisual, unlockedVisual
      ensures var unlocked := Unlocked(requiredAbilityId, requiredKeyfileId, progress);
              && blockingCollider.enabled == !unlocked
              && (lockedVisual != null && lockedVisual != unlockedVisual ==> lockedVisual.active == !unlocked)
              && (unlockedVisual != null ==> unlockedVisual.active == unlocked)
    {
      var unlocked := true;
      if progress == null {
        unlocked := false;
      }
      if unlocked && !IsBlank(requiredAbilityId) && !progress.HasAbility(requiredAbilityId) {
        unlocked := false;
      }
      if unlocked && !IsBlank(requiredKeyfileId) && !progress.HasKeyfile(requiredKeyfileId) {
        unlocked := false;
      }
      blockingCollider.enabled := !unlocked;
      if lockedVisual != null {
        lockedVisual.active := !unlocked;
      }
      if unlockedVisual != null {
        unlockedVisual.active := unlocked;
      }
    }
  }
}
