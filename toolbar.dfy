/** The bottom-of-screen toolbar (Assets/Scripts/UI/Toolbar/ToolbarUI.cs and
    ToolbarItem.cs): a list of items, one per slot, and a selected slot. Only
    what each slot view shows and whether it is highlighted is modelled, not
    its layout. */
module Toolbar {
  import opened Text
  import opened UnityMath

  /** A sprite asset, by identity. */
  type SpriteId = nat

  /** `ToolbarItem`: an optional name and an optional icon. */
  datatype ToolbarItem = ToolbarItem(displayName: NString, icon: Option<SpriteId>)
  {
    /** `IsEmpty`: no visible name and no icon. */
    predicate IsEmpty()
      ensures IsEmpty() ==> icon.None?
      ensures displayName.None? ==> (IsEmpty() <==> icon.None?)
    {
      IsBlank(displayName) && icon.None?
    }
  }

  /** `default(ToolbarItem)`. */
  const EmptyItem := ToolbarItem(None, None)

  /** The default item is empty; an item with a visible name or an icon is not. */
  lemma EmptyExactly(item: ToolbarItem)
    ensures EmptyItem.IsEmpty()
    ensures !IsBlank(item.displayName) || item.icon.Some? ==> !item.IsEmpty()
  {
  }

  /** What a slot view shows (`None` once cleared) and whether it is highlighted. */
  datatype SlotView = SlotView(shown: Option<ToolbarItem>, selected: bool)

  /** A slot view as it is created: cleared, not highlighted. */
  const NewSlot := SlotView(None, false)

  /** What a slot shows for an item: nothing for an empty item. */
  function ViewOf(item: ToolbarItem): (v: Option<ToolbarItem>)
    ensures v.None? <==> item.IsEmpty()
    ensures v.Some? ==> v.value == item
  {
    if item.IsEmpty() then None else Some(item)
  }

  /** The item list padded with empty items up to `n` entries. */
  function Padded(items: seq<ToolbarItem>, n: int): (r: seq<ToolbarItem>)
    ensures |r| == if |items| < n then n else |items|
    ensures forall i :: 0 <= i < |r| ==> r[i] == if i < |items| then items[i] else EmptyItem
  {
    if |items| < n then items + seq(n - |items|, _ => EmptyItem) else items
  }

  /** The slot views after a rebuild: the first `n` existing views kept by
      position, fresh ones for the rest. */
  function Resized(slots: seq<SlotView>, n: nat): (r: seq<SlotView>)
    ensures |r| == n
    ensures forall i :: 0 <= i < n ==> r[i] == if i < |slots| then slots[i] else NewSlot
  {
    seq(n, i requires 0 <= i < n => if i < |slots| then slots[i] else NewSlot)
  }

  /** The item list `SetItems` stores: the first inputs up to the slot count,
      the rest empty; all empty for a null list. */
  function Fitted(newItems: Option<seq<ToolbarItem>>, n: nat): (r: seq<ToolbarItem>)
    ensures |r| == n
    ensures forall i :: 0 <= i < |r| ==>
              r[i] == if newItems.Some? && i < |newItems.value| then newItems.value[i] else EmptyItem
  {
    var kept := if newItems.None? then [] else if |newItems.value| <= n then newItems.value
                else newItems.value[..n];
    Padded(kept, n)
  }

  class ToolbarUI {
    var slotCount: int
    var selectedIndex: int
    const showLabels: bool
    const defaultEquippedName: NString
    const defaultEquippedIcon: Option<SpriteId>
    var slots: seq<SlotView>
    var items: seq<ToolbarItem>

    /** The normalised counters and one view per slot, as `EnsureBuilt` leaves them. */
    predicate Built()
      reads this
    {
      slotCount >= 1 && 0 <= selectedIndex < slotCount && |slots| == slotCount
    }

    /** Every view shows its item, and exactly the selected one is highlighted. */
    predicate Displayed()
      reads this
    {
      Built() && |items| >= slotCount
      && (forall i :: 0 <= i < |slots| ==> slots[i].shown == ViewOf(items[i]))
      && (forall i :: 0 <= i < |slots| ==> (slots[i].selected <==> i == selectedIndex))
    }

    /** The inspector values with `Awake` applied. */
    constructor (slotCount: int, selectedIndex: int, showLabels: bool,
                 defaultEquippedName: NString, defaultEquippedIcon: Option<SpriteId>)
      ensures Built() && items == []
      ensures this.slotCount == MaxInt(1, slotCount)
      ensures this.selectedIndex == ClampInt(selectedIndex, 0, this.slotCount - 1)
      ensures slots == seq(this.slotCount, _ => NewSlot)
      ensures this.defaultEquippedName == defaultEquippedName && this.defaultEquippedIcon == defaultEquippedIcon
    {
      this.slotCount := slotCount;
      this.selectedIndex := selectedIndex;
      this.showLabels := showLabels;
      this.defaultEquippedName := defaultEquippedName;
      this.defaultEquippedIcon := defaultEquippedIcon;
      slots := [];
      items := [];
      new;
      EnsureBuilt();
    }

    /** `EnsureBuilt`: at least one slot, the selection inside the slots, and one
        view per slot. */
    method EnsureBuilt()
      modifies this`slotCount, this`selectedIndex, this`slots
      ensures Built()
      ensures slotCount == MaxInt(1, old(slotCount))
      ensures selectedIndex == ClampInt(old(selectedIndex), 0, slotCount - 1)
      ensures slots == Resized(old(slots), slotCount)
    {
      slotCount := MaxInt(1, slotCount);
      selectedIndex := ClampInt(selectedIndex, 0, slotCount - 1);
      RebuildSlots();
    }

    /** `RebuildSlots`: reuse the existing views by position and create the
        missing ones. */
    method RebuildSlots()
      requires slotCount >= 0
      modifies this`slots
      ensures slots == Resized(old(slots), slotCount)
    {
      var existing := slots;
      slots := [];
      for i := 0 to slotCount
        invariant |slots| == i
        invariant forall j :: 0 <= j < i ==> slots[j] == if j < |existing| then existing[j] else NewSlot
      {
        var slot := if i < |existing| then existing[i] else NewSlot;
        slots := slots + [slot];
      }
    }

    /** `Start`: an empty toolbar gets one empty item per slot with the default
        equipped item first; then everything is shown. */
    method Start()
      requires |items| > 0 || slotCount >= 1
      modifies this`slotCount, this`selectedIndex, this`slots, this`items
      ensures Displayed()
      ensures selectedIndex == ClampInt(old(selectedIndex), 0, slotCount - 1)
      ensures old(|items|) == 0 ==>
                items == [ToolbarItem(defaultEquippedName, defaultEquippedIcon)] + seq(slotCount - 1, _ => EmptyItem)
      ensures old(|items|) > 0 ==> items == Padded(old(items), slotCount)
      ensures slotCount == MaxInt(1, old(slotCount))
    {
      if |items| == 0 {
        var filled := [];
        for i := 0 to slotCount
          invariant filled == seq(i, _ => EmptyItem)
        {
          filled := filled + [EmptyItem];
        }
        filled := filled[0 := ToolbarItem(defaultEquippedName, defaultEquippedIcon)];
        assert filled == [ToolbarItem(defaultEquippedName, defaultEquippedIcon)] + seq(slotCount - 1, _ => EmptyItem);
        items := filled;
      }
      ApplyToView();
    }

    /** `SetItems`: keep the inputs that fit, fill the rest with empty items. */
    method SetItems(newItems: Option<seq<ToolbarItem>>)
      modifies this`slotCount, this`selectedIndex, this`slots, this`items
      ensures Displayed()
      ensures selectedIndex == ClampInt(old(selectedIndex), 0, slotCount - 1)
      ensures slotCount == MaxInt(1, old(slotCount))
      ensures items == Fitted(newItems, slotCount)
    {
      EnsureBuilt();
      var kept := [];
      if newItems.Some? {
        var i := 0;
        while i < |newItems.value| && i < slotCount
          invariant 0 <= i <= slotCount
          invariant i <= |newItems.value|
          invariant kept == newItems.value[..i]
        {
          kept := kept + [newItems.value[i]];
          i := i + 1;
        }
      }
      items := kept;
      PadItems();
      ghost var want := Fitted(newItems, slotCount);
      assert |items| == |want|;
      assert forall k :: 0 <= k < |items| ==> items[k] == want[k];
      ApplyToView();
    }

    /** `SetSelectedIndex`: select the slot nearest to `index`. */
    method SetSelectedIndex(index: int)
      modifies this`slotCount, this`selectedIndex, this`slots
      ensures Built() && items == old(items)
      ensures slotCount == MaxInt(1, old(slotCount))
      ensures selectedIndex == ClampInt(index, 0, slotCount - 1)
      ensures forall i :: 0 <= i < |slots| ==> (slots[i].selected <==> i == selectedIndex)
      ensures forall i :: 0 <= i < |slots| ==> slots[i].shown == Resized(old(slots), slotCount)[i].shown
    {
      EnsureBuilt();
      selectedIndex := ClampInt(index, 0, slotCount - 1);
      ApplySelection();
    }

    /** `SetSlot`: an index outside the slots changes no item; otherwise the
        list is padded to the slot count and only that entry replaced. */
    method SetSlot(index: int, item: ToolbarItem)
      modifies this`slotCount, this`selectedIndex, this`slots, this`items
      ensures slotCount == MaxInt(1, old(slotCount))
      ensures selectedIndex == ClampInt(old(selectedIndex), 0, slotCount - 1)
      ensures index < 0 || index >= slotCount ==>
                items == old(items) && Built() && slots == Resized(old(slots), slotCount)
      ensures 0 <= index < slotCount ==>
                Displayed() && items == Padded(old(items), slotCount)[index := item]
    {
      EnsureBuilt();
      if index < 0 || index >= slotCount {
        return;
      }
      PadItems();
      items := items[index := item];
      ApplyToView();
    }

    /** The padding loop shared by `SetItems`, `SetSlot` and `ApplyToView`. */
    method PadItems()
      modifies this`items
      ensures items == Padded(old(items), slotCount)
    {
      ghost var orig := items;
      while |items| < slotCount
        invariant |orig| <= |items|
        invariant |items| <= if |orig| < slotCount then slotCount else |orig|
        invariant forall i :: 0 <= i < |items| ==> items[i] == if i < |orig| then orig[i] else EmptyItem
        decreases slotCount - |items|
      {
        items := items + [EmptyItem];
      }
      ghost var want := Padded(orig, slotCount);
      assert |items| == |want|;
      assert forall i :: 0 <= i < |items| ==> items[i] == want[i];
    }

    /** `ApplyToView`: rebuild, pad, show every item, then highlight. */
    method ApplyToView()
      modifies this`slotCount, this`selectedIndex, this`slots, this`items
      ensures Displayed()
      ensures slotCount == MaxInt(1, old(slotCount))
      ensures selectedIndex == ClampInt(old(selectedIndex), 0, slotCount - 1)
      ensures items == Padded(old(items), slotCount)
    {
      EnsureBuilt();
      PadItems();
      var views := slots;
      var i := 0;
      while i < |views|
        invariant 0 <= i <= |views| == slotCount <= |items|
        invariant forall j :: 0 <= j < i ==> views[j].shown == ViewOf(items[j])
      {
        views := views[i := views[i].(shown := ViewOf(items[i]))];
        i := i + 1;
      }
      slots := views;
      ApplySelection();
    }

    /** `ApplySelection`: highlight exactly the selected slot. */
    method ApplySelection()
      requires slotCount >= 1
      modifies this`selectedIndex, this`slots
      ensures selectedIndex == ClampInt(old(selectedIndex), 0, slotCount - 1)
      ensures |slots| == |old(slots)|
      ensures forall i :: 0 <= i < |slots| ==> slots[i] == old(slots[i]).(selected := i == selectedIndex)
    {
      selectedIndex := ClampInt(selectedIndex, 0, slotCount - 1);
      var views := slots;
      var i := 0;
      while i < |views|
        invariant 0 <= i <= |views| == |slots|
        invariant forall j :: 0 <= j < i ==> views[j] == slots[j].(selected := j == selectedIndex)
        invariant forall j :: i <= j < |views| ==> views[j] == slots[j]
      {
        views := views[i := views[i].(selected := i == selectedIndex)];
        i := i + 1;
      }
      slots := views;
    }
  }
}
