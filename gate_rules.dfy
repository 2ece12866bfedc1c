/** `GateRules.CanTraverse` (Assets/Scripts/World/GateRules.cs): whether the
    progress meets an exit's ability and keyfile requirements. */
module Gates {
  import opened Text
  import opened World
  import opened Progress

  /** Whether held ids meet a requirement: a blank one imposes nothing. */
  predicate Meets(required: NString, held: set<string>)
  {
    IsBlank(required) || required.value in held
  }

  /** `CanTraverse`: refused without progress, and otherwise allowed exactly
      when each non-blank requirement is held. */
  predicate CanTraverse(exit: RoomExit, progress: PlayerProgress?)
    reads progress
    ensures progress == null ==> !CanTraverse(exit, progress)
    ensures progress != null ==>
              (CanTraverse(exit, progress) <==>
                 Meets(exit.requiredAbilityId, progress.unlockedAbilitySet)
                 && Meets(exit.requiredKeyfileId, progress.keyfileSet))
  {
    if progress == null then false
    else if !IsBlank(exit.requiredAbilityId) && !progress.HasAbility(exit.requiredAbilityId) then false
    else if !IsBlank(exit.requiredKeyfileId) && !progress.HasKeyfile(exit.requiredKeyfileId) then false
    else true
  }

  /** Holding more never closes an exit. */
  lemma CanTraverseMonotone(exit: RoomExit, p: PlayerProgress, q: PlayerProgress)
    requires p.unlockedAbilitySet <= q.unlockedAbilitySet && p.keyfileSet <= q.keyfileSet
    ensures CanTraverse(exit, p) ==> CanTraverse(exit, q)
  {
  }

  /** An exit without requirements is open to any progress. */
  lemma UngatedExitOpen(exit: RoomExit, p: PlayerProgress)
    requires IsBlank(exit.requiredAbilityId) && IsBlank(exit.requiredKeyfileId)
    ensures CanTraverse(exit, p)
  {
  }

  /** Unlocking the required ability and collecting the required keyfile opens
      the exit. */
  lemma {:induction false} UnlockingOpens(exit: RoomExit, abilities: set<string>, keyfiles: set<string>,
                                          l1: Option<seq<NString>>, l2: Option<seq<NString>>)
    ensures Meets(exit.requiredAbilityId, Added(abilities, l1, exit.requiredAbilityId).ids)
    ensures Meets(exit.requiredKeyfileId, Added(keyfiles, l2, exit.requiredKeyfileId).ids)
  {
    if !IsBlank(exit.requiredAbilityId) {
      UnlockedIsHeld(abilities, l1, exit.requiredAbilityId);
    }
    if !IsBlank(exit.requiredKeyfileId) {
      UnlockedIsHeld(keyfiles, l2, exit.requiredKeyfileId);
    }
  }
}
