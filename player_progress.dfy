/** The run's progression (Assets/Scripts/Core/PlayerProgress.cs): the saved
    record of unlocked abilities, collected keyfiles and discovered rooms, and
    the hash sets the game queries, mirrored from those lists. */
module Progress {
  import opened Text

  /** `PlayerProgressData`, a shared reference; each list may be null. */
  class ProgressData {
    var currentRoomId: NString
    var lastSaveRoomId: NString
    var unlockedAbilities: Option<seq<NString>>
    var collectedKeyfiles: Option<seq<NString>>
    var discoveredRooms: Option<seq<NString>>

    /** `new PlayerProgressData()`: no rooms, three empty lists. */
    constructor ()
      ensures currentRoomId == None && lastSaveRoomId == None
      ensures unlockedAbilities == Some([]) && collectedKeyfiles == Some([]) && discoveredRooms == Some([])
    {
      currentRoomId := None;
      lastSaveRoomId := None;
      unlockedAbilities := Some([]);
      collectedKeyfiles := Some([]);
      discoveredRooms := Some([]);
    }
  }

  /** The ids a list contributes to its set: its non-blank entries. */
  function NonBlankIds(l: seq<NString>): (ids: set<string>)
    ensures forall x :: x in ids <==> Some(x) in l && !IsBlank(Some(x))
    decreases |l|
  {
    if l == [] then {}
    else
      var init := l[..|l| - 1];
      assert l == init + [l[|l| - 1]];
      NonBlankIds(init) + (if IsBlank(l[|l| - 1]) then {} else {l[|l| - 1].value})
  }

  /** The set `LoadFrom` builds from a list that may be null. */
  function IdsOf(l: Option<seq<NString>>): (ids: set<string>)
  {
    if l.None? then {} else NonBlankIds(l.value)
  }

  /** The set holds exactly the list's non-blank ids. */
  predicate Mirrored(ids: set<string>, l: Option<seq<NString>>)
  {
    l.Some? && ids == NonBlankIds(l.value)
  }

  /** One set and its list after an `Unlock`/`Discover`/`Collect`; `threw` is
      set when the list was null and the append raised an exception, after the
      set already took the id. */
  datatype Recorded = Recorded(ids: set<string>, list: Option<seq<NString>>, threw: bool)

  /** `UnlockAbility`, `DiscoverRoom` and `CollectKeyfile` on their own set and
      list: a blank id changes nothing; otherwise the set takes the id, and only
      when it was new is the id appended, unless already listed. */
  function Added(ids: set<string>, l: Option<seq<NString>>, id: NString): (r: Recorded)
    ensures IsBlank(id) ==> r == Recorded(ids, l, false)
    ensures !IsBlank(id) ==> r.ids == ids + {id.value}
    ensures r.threw <==> !IsBlank(id) && id.value !in ids && l.None?
    ensures r.list.Some? ==> id in r.list.value || IsBlank(id) || id.value in ids
    ensures !IsBlank(id) && (id.value in ids || (l.Some? && id in l.value)) ==> r.list == l
    ensures !IsBlank(id) && id.value !in ids && l.Some? && id !in l.value ==> r.list == Some(l.value + [id])
    ensures l.None? ==> r.list == l
  {
    if IsBlank(id) || id.value in ids then Recorded(ids + (if IsBlank(id) then {} else {id.value}), l, false)
    else if l.None? then Recorded(ids + {id.value}, l, true)
    else if id in l.value then Recorded(ids + {id.value}, l, false)
    else Recorded(ids + {id.value}, Some(l.value + [id]), false)
  }

  /** Recording never removes: the set grows and the list is only extended. */
  lemma AddedKeepsAll(ids: set<string>, l: Option<seq<NString>>, id: NString)
    ensures var r := Added(ids, l, id);
            ids <= r.ids && (l.Some? <==> r.list.Some?) && (l.Some? ==> l.value <= r.list.value)
  {
  }

  /** Recording the same id twice is recording it once. */
  lemma {:induction false} AddedIdempotent(ids: set<string>, l: Option<seq<NString>>, id: NString)
    requires !Added(ids, l, id).threw
    ensures var r := Added(ids, l, id);
            Added(r.ids, r.list, id) == r
  {
    var r := Added(ids, l, id);
    if !IsBlank(id) {
      assert id.value in r.ids;
      assert r.ids + {id.value} == r.ids;
    }
  }

  /** A set mirrored by its list stays mirrored. */
  lemma {:induction false} AddedMirrored(ids: set<string>, l: Option<seq<NString>>, id: NString)
    requires Mirrored(ids, l)
    ensures Mirrored(Added(ids, l, id).ids, Added(ids, l, id).list)
  {
    var r := Added(ids, l, id);
    if !IsBlank(id) && id.value !in ids {
      // a listed non-blank id would already be in the set
      assert id !in l.value;
      forall x
        ensures x in r.ids <==> x in NonBlankIds(r.list.value)
      {
        assert Some(x) in r.list.value <==> Some(x) in l.value || Some(x) == id;
      }
    }
  }

  /** What `LoadFrom` builds is mirrored by the list it came from. */
  lemma LoadedMirrored(l: seq<NString>)
    ensures Mirrored(IdsOf(Some(l)), Some(l))
  {
  }

  class PlayerProgress {
    var data: ProgressData
    var unlockedAbilitySet: set<string>
    var discoveredRoomSet: set<string>
    var keyfileSet: set<string>

    /** A fresh component: a new empty record and empty sets. */
    constructor ()
      ensures fresh(data) && data.unlockedAbilities == Some([])
      ensures data.collectedKeyfiles == Some([]) && data.discoveredRooms == Some([])
      ensures data.currentRoomId == None && data.lastSaveRoomId == None
      ensures unlockedAbilitySet == {} && discoveredRoomSet == {} && keyfileSet == {}
    {
      data := new ProgressData();
      unlockedAbilitySet := {};
      discoveredRoomSet := {};
      keyfileSet := {};
    }

    /** `HasAbility`: never for a blank id. */
    predicate HasAbility(id: NString)
      reads this
      ensures HasAbility(id) ==> !IsBlank(id)
      ensures !IsBlank(id) ==> (HasAbility(id) <==> id.value in unlockedAbilitySet)
    {
      !IsBlank(id) && id.value in unlockedAbilitySet
    }

    /** `HasKeyfile`: never for a blank id. */
    predicate HasKeyfile(id: NString)
      reads this
      ensures HasKeyfile(id) ==> !IsBlank(id)
      ensures !IsBlank(id) ==> (HasKeyfile(id) <==> id.value in keyfileSet)
    {
      !IsBlank(id) && id.value in keyfileSet
    }

    /** `HasDiscoveredRoom`: never for a blank id. */
    predicate HasDiscoveredRoom(id: NString)
      reads this
      ensures HasDiscoveredRoom(id) ==> !IsBlank(id)
      ensures !IsBlank(id) ==> (HasDiscoveredRoom(id) <==> id.value in discoveredRoomSet)
    {
      !IsBlank(id) && id.value in discoveredRoomSet
    }

    /** `LoadFrom`: adopt the record (a new empty one for null) and rebuild each
        set from the non-blank entries of its list. */
    method LoadFrom(d: ProgressData?)
      modifies this
      ensures d != null ==> data == d
      ensures d == null ==> fresh(data) && data.unlockedAbilities == Some([])
                            && data.collectedKeyfiles == Some([]) && data.discoveredRooms == Some([])
                            && data.currentRoomId == None && data.lastSaveRoomId == None
      ensures unlockedAbilitySet == IdsOf(data.unlockedAbilities)
      ensures discoveredRoomSet == IdsOf(data.discoveredRooms)
      ensures keyfileSet == IdsOf(data.collectedKeyfiles)
    {
      if d == null {
        data := new ProgressData();
      } else {
        data := d;
      }
      unlockedAbilitySet := {};
      discoveredRoomSet := {};
      keyfileSet := {};
      if data.unlockedAbilities.Some? {
        unlockedAbilitySet := CollectIds(data.unlockedAbilities.value);
      }
      if data.discoveredRooms.Some? {
        discoveredRoomSet := CollectIds(data.discoveredRooms.value);
      }
      if data.collectedKeyfiles.Some? {
        keyfileSet := CollectIds(data.collectedKeyfiles.value);
      }
    }

    /** `UnlockAbility`. */
    method UnlockAbility(id: NString) returns (threw: bool)
      modifies this`unlockedAbilitySet, data`unlockedAbilities
      ensures Recorded(unlockedAbilitySet, data.unlockedAbilities, threw)
              == Added(old(unlockedAbilitySet), old(data.unlockedAbilities), id)
    {
      threw := false;
      if IsBlank(id) {
        return;
      }
      if id.value !in unlockedAbilitySet {
        unlockedAbilitySet := unlockedAbilitySet + {id.value};
        if data.unlockedAbilities.None? {
          threw := true;
          return;
        }
        if id !in data.unlockedAbilities.value {
          data.unlockedAbilities := Some(data.unlockedAbilities.value + [id]);
        }
      }
    }

    /** `DiscoverRoom`. */
    method DiscoverRoom(id: NString) returns (threw: bool)
      modifies this`discoveredRoomSet, data`discoveredRooms
      ensures Recorded(discoveredRoomSet, data.discoveredRooms, threw)
              == Added(old(discoveredRoomSet), old(data.discoveredRooms), id)
    {
      threw := false;
      if IsBlank(id) {
        return;
      }
      if id.value !in discoveredRoomSet {
        discoveredRoomSet := discoveredRoomSet + {id.value};
        if data.discoveredRooms.None? {
          threw := true;
          return;
        }
        if id !in data.discoveredRooms.value {
          data.discoveredRooms := Some(data.discoveredRooms.value + [id]);
        }
      }
    }

    /** `CollectKeyfile`. */
    method CollectKeyfile(id: NString) returns (threw: bool)
      modifies this`keyfileSet, data`collectedKeyfiles
      ensures Recorded(keyfileSet, data.collectedKeyfiles, threw)
              == Added(old(keyfileSet), old(data.collectedKeyfiles), id)
    {
      threw := false;
      if IsBlank(id) {
        return;
      }
      if id.value !in keyfileSet {
        keyfileSet := keyfileSet + {id.value};
        if data.collectedKeyfiles.None? {
          threw := true;
          return;
        }
        if id !in data.collectedKeyfiles.value {
          data.collectedKeyfiles := Some(data.collectedKeyfiles.value + [id]);
        }
      }
    }
  }

  /** One `foreach` of `LoadFrom`: add every non-blank entry. */
  method CollectIds(l: seq<NString>) returns (ids: set<string>)
    ensures ids == NonBlankIds(l)
  {
    ids := {};
    for i := 0 to |l|
      invariant ids == NonBlankIds(l[..i])
    {
      assert l[..i + 1][..i] == l[..i];
      if !IsBlank(l[i]) {
        ids := ids + {l[i].value};
      }
    }
    assert l[..|l|] == l;
  }

  /** After an unlock with a non-blank id the ability is held, whatever else
      happened. */
  lemma UnlockedIsHeld(ids: set<string>, l: Option<seq<NString>>, id: NString)
    requires !IsBlank(id)
    ensures id.value in Added(ids, l, id).ids
  {
  }
}
