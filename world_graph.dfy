/** The room graph (Assets/Scripts/World/WorldGraph.cs): rooms with their scene
    and their exits, each exit optionally gated by an ability and a keyfile. */
module World {
  import opened Text
  import opened Search

  /** `RoomExit`: a gate is imposed only by a non-blank id. */
  datatype RoomExit = RoomExit(toRoomId: NString, requiredAbilityId: NString, requiredKeyfileId: NString)

  /** `RoomNode`; its exit list may be null. */
  datatype RoomNode = RoomNode(roomId: NString, sceneName: NString, exits: Option<seq<RoomExit>>)

  /** `default(RoomNode)`. */
  const DefaultRoom := RoomNode(None, None, None)

  /** The answer of `TryGetRoom`: the returned flag and the `out` node. */
  datatype RoomLookup = RoomLookup(found: bool, node: RoomNode)

  /** Whether a room carries `roomId` (C# string equality, so null matches null). */
  predicate HasId(n: RoomNode, roomId: NString)
  {
    n.roomId == roomId
  }

  /** The graph asset; the game only reads its room list. */
  class WorldGraph {
    var rooms: seq<RoomNode>

    constructor (rooms: seq<RoomNode>)
      ensures this.rooms == rooms
    {
      this.rooms := rooms;
    }

    /** `TryGetRoom`: found exactly when some room has the id; the node is then
        the first such room in list order, and the default node otherwise. */
    function TryGetRoom(roomId: NString): (r: RoomLookup)
      reads this
      ensures r.found <==> exists i :: 0 <= i < |rooms| && HasId(rooms[i], roomId)
      ensures r.found ==> exists i :: 0 <= i < |rooms| && rooms[i] == r.node && HasId(rooms[i], roomId)
                                      && forall j :: 0 <= j < i ==> !HasId(rooms[j], roomId)
      ensures !r.found ==> r.node == DefaultRoom
    {
      var k := FirstMatch(rooms, (n: RoomNode) => HasId(n, roomId));
      if k < |rooms| then RoomLookup(true, rooms[k]) else RoomLookup(false, DefaultRoom)
    }
  }

  /** Looking up a room's own id finds a room with that id, and the first
      occurrence of a duplicated id shadows the later ones. */
  lemma LookupFindsListedRoom(g: WorldGraph, i: nat)
    requires i < |g.rooms|
    ensures var r := g.TryGetRoom(g.rooms[i].roomId);
            r.found && r.node.roomId == g.rooms[i].roomId
  {
    var r := g.TryGetRoom(g.rooms[i].roomId);
    assert HasId(g.rooms[i], g.rooms[i].roomId);
  }
}
