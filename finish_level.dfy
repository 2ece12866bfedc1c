/** The level door (Assets/Scripts/Player/FinishLevel.cs): the first touch by
    the player freezes the player and schedules the level change; the change
    consults the room graph's gates when the world systems are present. */
module Finish {
  import opened Text
  import opened Search
  import opened World
  import opened Progress
  import opened Gates
  import Movement

  /** The answer of `TryCanTraverseToScene`: the flag and the `out` room id. */
  datatype Traversal = Traversal(allowed: bool, destRoomId: NString)

  predicate ShowsScene(n: RoomNode, sceneName: NString)
  {
    n.sceneName == sceneName
  }

  predicate LeadsTo(e: RoomExit, roomId: NString)
  {
    e.toRoomId == roomId
  }

  /** The id of the first room showing the scene; null when none does. */
  function Destination(rooms: seq<RoomNode>, sceneName: NString): (dest: NString)
    ensures (forall i :: 0 <= i < |rooms| ==> !ShowsScene(rooms[i], sceneName)) ==> dest == None
    ensures dest != None ==> exists i :: 0 <= i < |rooms| && ShowsScene(rooms[i], sceneName)
                                         && rooms[i].roomId == dest
                                         && forall j :: 0 <= j < i ==> !ShowsScene(rooms[j], sceneName)
  {
    var k := FirstMatch(rooms, (n: RoomNode) => ShowsScene(n, sceneName));
    if k < |rooms| then rooms[k].roomId else None
  }

  /** The exit that decides a move from `current` to `dest`: the first exit of
      the first room with the current id that leads to `dest`, if any. */
  function GoverningExit(g: WorldGraph, current: NString, dest: NString): (e: Option<RoomExit>)
    reads g
    ensures e.Some? ==> LeadsTo(e.value, dest)
    ensures e.Some? ==> var look := g.TryGetRoom(current);
                        look.found && look.node.exits.Some? && e.value in look.node.exits.value
    ensures e.None? ==> var look := g.TryGetRoom(current);
                        !look.found || look.node.exits.None?
                        || forall x :: x in look.node.exits.value ==> !LeadsTo(x, dest)
  {
    var look := g.TryGetRoom(current);
    if !look.found || look.node.exits.None? then None
    else
      var exits := look.node.exits.value;
      var k := FirstMatch(exits, (x: RoomExit) => LeadsTo(x, dest));
      if k < |exits| then Some(exits[k]) else None
  }

  /** `TryCanTraverseToScene`, given whether the game root exists, its progress
      component and its loader's graph. Refused without any of them or without
      a destination room; allowed when the current room is unknown, not in the
      graph or without exits, or when no exit leads to the destination; decided
      by `CanTraverse` on the governing exit otherwise. */
  function TryCanTraverseToScene(sceneName: NString, rootPresent: bool, progress: PlayerProgress?,
                                 graph: WorldGraph?): (r: Traversal)
    reads graph, progress, if progress != null then {progress.data} else {}
    ensures r.allowed ==> rootPresent && progress != null && graph != null && !IsBlank(r.destRoomId)
    ensures rootPresent && progress != null && graph != null ==>
              r.destRoomId == Destination(graph.rooms, sceneName)
    ensures rootPresent && progress != null && graph != null && !IsBlank(r.destRoomId) ==>
              (r.allowed <==>
                 IsBlank(progress.data.currentRoomId)
                 || match GoverningExit(graph, progress.data.currentRoomId, r.destRoomId)
                    case None => true
                    case Some(e) => CanTraverse(e, progress))
  {
    if !rootPresent || progress == null || graph == null then Traversal(false, None)
    else
      var dest := Destination(graph.rooms, sceneName);
      if IsBlank(dest) then Traversal(false, dest)
      else if IsBlank(progress.data.currentRoomId) then Traversal(true, dest)
      else
        match GoverningExit(graph, progress.data.currentRoomId, dest)
        case None => Traversal(true, dest)
        case Some(e) => Traversal(CanTraverse(e, progress), dest)
  }

  /** A gated door opens once the progress holds what its exit requires. */
  lemma {:induction false} DoorOpensWithRequirements(sceneName: NString, progress: PlayerProgress,
                                                     graph: WorldGraph)
    requires !IsBlank(Destination(graph.rooms, sceneName))
    requires var e := GoverningExit(graph, progress.data.currentRoomId, Destination(graph.rooms, sceneName));
             e.Some? ==> Meets(e.value.requiredAbilityId, progress.unlockedAbilitySet)
                         && Meets(e.value.requiredKeyfileId, progress.keyfileSet)
    ensures TryCanTraverseToScene(sceneName, true, progress, graph).allowed
  {
    var dest := Destination(graph.rooms, sceneName);
    var e := GoverningExit(graph, progress.data.currentRoomId, dest);
    if !IsBlank(progress.data.currentRoomId) && e.Some? {
      assert CanTraverse(e.value, progress);
    }
  }

  class FinishLevel {
    var levelCompleted: bool
    const nextScene: NString
    const useWorldGraphGating: bool
    /** The player found by name at `Start`, by its movement component. */
    const player: Movement.PlayerMovement?

    constructor (nextScene: NString, useWorldGraphGating: bool, player: Movement.PlayerMovement?)
      ensures !levelCompleted && this.nextScene == nextScene
      ensures this.useWorldGraphGating == useWorldGraphGating && this.player == player
    {
      levelCompleted := false;
      this.nextScene := nextScene;
      this.useWorldGraphGating := useWorldGraphGating;
      this.player := player;
    }

    /** `OnTriggerEnter2D` with the toucher's movement component (null for
        anything but an avatar); answers whether `CompleteLevel` was scheduled. */
    method OnTriggerEnter(toucher: Movement.PlayerMovement?) returns (scheduled: bool)
      modifies this`levelCompleted, player
      ensures scheduled <==> toucher != null && toucher == player && !old(levelCompleted)
      ensures scheduled ==> levelCompleted && player.ignoreUserInput
      ensures !scheduled ==> levelCompleted == old(levelCompleted) && (player != null ==> unchanged(player))
      ensures player != null ==> player.state == old(player.state)
    {
      scheduled := false;
      if toucher != null && toucher == player && !levelCompleted {
        player.ignoreUserInput := true;
        levelCompleted := true;
        scheduled := true;
      }
    }

    /** `CompleteLevel`, given the game root's presence, progress and graph;
        answers the scene it loads (none when it stays) and whether recording
        the discovery threw. Saving is not modelled. */
    method CompleteLevel(rootPresent: bool, progress: PlayerProgress?, graph: WorldGraph?)
      returns (loaded: NString, threw: bool)
      modifies this`levelCompleted, player, progress, if progress != null then {progress.data} else {}
      ensures IsBlank(nextScene) ==>
                loaded == None && !threw && !levelCompleted && (player != null ==> !player.ignoreUserInput)
      ensures var t := old(TryCanTraverseToScene(nextScene, rootPresent, progress, graph));
              !IsBlank(nextScene) && useWorldGraphGating && t.allowed ==>
                && progress != null
                && progress.data == old(progress.data)
                && progress.data.currentRoomId == t.destRoomId
                && Recorded(progress.discoveredRoomSet, progress.data.discoveredRooms, threw)
                   == Added(old(progress.discoveredRoomSet), old(progress.data.discoveredRooms), t.destRoomId)
                && (loaded == if threw then None else nextScene)
                && levelCompleted == old(levelCompleted) && (player != null ==> unchanged(player))
                && progress.unlockedAbilitySet == old(progress.unlockedAbilitySet)
                && progress.keyfileSet == old(progress.keyfileSet)
                && progress.data.unlockedAbilities == old(progress.data.unlockedAbilities)
                && progress.data.collectedKeyfiles == old(progress.data.collectedKeyfiles)
                && progress.data.lastSaveRoomId == old(progress.data.lastSaveRoomId)
      ensures var t := old(TryCanTraverseToScene(nextScene, rootPresent, progress, graph));
              !IsBlank(nextScene) && !(useWorldGraphGating && t.allowed)
              && useWorldGraphGating && rootPresent && graph != null ==>
                loaded == None && !threw && !levelCompleted && (player != null ==> !player.ignoreUserInput)
      ensures var t := old(TryCanTraverseToScene(nextScene, rootPresent, progress, graph));
              !IsBlank(nextScene) && !(useWorldGraphGating && t.allowed)
              && !(useWorldGraphGating && rootPresent && graph != null) ==>
                loaded == nextScene && !threw && levelCompleted == old(levelCompleted)
                && (player != null ==> unchanged(player))
      ensures var t := old(TryCanTraverseToScene(nextScene, rootPresent, progress, graph));
              (IsBlank(nextScene) || !(useWorldGraphGating && t.allowed)) && progress != null ==>
                unchanged(progress) && unchanged(old(progress.data))
      ensures player != null ==> player.state == old(player.state)
    {
      threw := false;
      loaded := None;
      if IsBlank(nextScene) {
        levelCompleted := false;
        if player != null {
          player.ignoreUserInput := false;
        }
        return;
      }
      var t := TryCanTraverseToScene(nextScene, rootPresent, progress, graph);
      if useWorldGraphGating && t.allowed {
        var p := if rootPresent then progress else null;
        if p != null && !IsBlank(t.destRoomId) {
          p.data.currentRoomId := t.destRoomId;
          threw := p.DiscoverRoom(t.destRoomId);
          if threw {
            return;
          }
        }
      } else if useWorldGraphGating && rootPresent && graph != null {
        levelCompleted := false;
        if player != null {
          player.ignoreUserInput := false;
        }
        return;
      }
      loaded := nextScene;
    }
  }
}
