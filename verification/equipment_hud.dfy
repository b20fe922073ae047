/**
 * The per-player equipment HUD: one image per equip slot, showing the icon of
 * the equipped item unless that gadget is cooling down, with the selected slot
 * dimmed. An image is reduced to the three things the HUD writes: whether it is
 * enabled, its sprite and its colour.
 */
module Hud {
  import opened Common
  import Registry
  import Gadgets

  datatype Icon =
    | TailSwipeIcon | ClimberClawsIcon | CheckpointIcon | InvisibilityCloakIcon | ShieldIcon
    | BootsIcon | WingsuitIcon | AcornIcon | LauncherIcon

  /** An RGBA colour with exact real channels. */
  datatype Color = Color(r: real, g: real, b: real, a: real)

  /** What the HUD writes to one slot image. */
  datatype Slot = Slot(enabled: bool, sprite: Option<Icon>, color: Color)

  /** The item each icon pictures. */
  function ItemForIcon(icon: Icon): string
  {
    match icon
    case TailSwipeIcon => TailSwipeId
    case ClimberClawsIcon => ClimberClawsId
    case CheckpointIcon => CheckpointId
    case InvisibilityCloakIcon => InvisibilityCloakId
    case ShieldIcon => ShieldId
    case BootsIcon => BootsId
    case WingsuitIcon => WingsuitId
    case AcornIcon => AcornId
    case LauncherIcon => LauncherId
  }

  /**
   * The sprite for each of the nine catalogue ids; no sprite for any other id.
   * The sprite pictures that item, so no two ids share one.
   */
  function IconForID(id: string): (r: Option<Icon>)
    ensures r.Some? <==> id in KnownItems
    ensures r.Some? ==> ItemForIcon(r.value) == id
  {
    if id == TailSwipeId then Some(TailSwipeIcon)
    else if id == ClimberClawsId then Some(ClimberClawsIcon)
    else if id == CheckpointId then Some(CheckpointIcon)
    else if id == InvisibilityCloakId then Some(InvisibilityCloakIcon)
    else if id == ShieldId then Some(ShieldIcon)
    else if id == BootsId then Some(BootsIcon)
    else if id == WingsuitId then Some(WingsuitIcon)
    else if id == AcornId then Some(AcornIcon)
    else if id == LauncherId then Some(LauncherIcon)
    else None
  }

  /** The selection tint: RGB scaled by the dim factor, alpha kept. */
  function Dim(c: Color, factor: real): (d: Color)
    ensures d.a == c.a
    ensures factor == 1.0 ==> d == c
  {
    Color(c.r * factor, c.g * factor, c.b * factor, c.a)
  }

  /**
   * What RefreshHUD leaves in slot i, given the equipped list, which of its
   * items are cooling down, the selected index and the slot's original colour.
   */
  function ExpectedSlot(i: nat, equipped: seq<string>, coolingDown: seq<bool>, sel: int,
                        original: Color, dimFactor: real): (r: Slot)
    requires |coolingDown| == |equipped|
    ensures r.enabled <==> i < |equipped| && !coolingDown[i]
    ensures r.enabled ==> r.sprite == IconForID(equipped[i])
    ensures !r.enabled ==> r.sprite.None? && r.color == original
    ensures r.color.a == original.a
    ensures r.color != original ==> r.enabled && i == sel
    ensures r.enabled && i == sel ==> r.color == Dim(original, dimFactor)
  {
    if i < |equipped| && !coolingDown[i] then
      Slot(true, IconForID(equipped[i]), if i == sel then Dim(original, dimFactor) else original)
    else
      Slot(false, None, original)
  }

  /** Which equipped items the controller reports on cooldown; none without a controller. */
  function CooldownFlags(gc: Gadgets.GadgetController2D?, equipped: seq<string>): (r: seq<bool>)
    reads gc
    ensures |r| == |equipped|
    ensures forall k :: 0 <= k < |r| ==> r[k] == (gc != null && gc.IsOnCooldown(equipped[k]))
  {
    if equipped == [] then []
    else CooldownFlags(gc, equipped[..|equipped| - 1])
         + [gc != null && gc.IsOnCooldown(equipped[|equipped| - 1])]
  }

  class EquipmentHUD {
    var playerIndex: int
    /** The slot images (three in the scenes). */
    const slots: array<Slot>
    /** The slot colours cached by Awake. */
    const originalColors: array<Color>
    const dimFactor: real
    var gadgetController: Gadgets.GadgetController2D?
    var lastSelected: int

    ghost predicate Valid()
      reads this
    {
      slots.Length == originalColors.Length
    }

    /** Awake: caches the slot images' colours; no controller is known yet and nothing is selected. */
    constructor (index: int, images: seq<Slot>)
      ensures Valid() && fresh(slots) && fresh(originalColors)
      ensures playerIndex == index && slots[..] == images && dimFactor == 0.5
      ensures forall i :: 0 <= i < |images| ==> originalColors[i] == images[i].color
      ensures gadgetController == null && lastSelected == -1
    {
      playerIndex, dimFactor := index, 0.5;
      gadgetController, lastSelected := null, -1;
      var s := new Slot[|images|](i requires 0 <= i < |images| => images[i]);
      assert s[..] == images;
      var colors := new Color[|images|];
      var i := 0;
      while i < |images|
        invariant 0 <= i <= |images|
        invariant s[..] == images
        invariant forall k :: 0 <= k < i ==> colors[k] == images[k].color
      {
        colors[i] := images[i].color;
        i := i + 1;
      }
      slots, originalColors := s, colors;
    }

    /** The controller's selected index, or -1 without a controller. */
    function Selected(): (sel: int)
      reads this, gadgetController
      ensures gadgetController == null ==> sel == -1
    {
      if gadgetController != null then gadgetController.selectedIndex else -1
    }

    /** Slot i is exactly what the equipped list, the cooldowns and the selection call for. */
    ghost predicate Shows(gm: Registry.GameManager)
      reads this, slots, originalColors, gadgetController, gm
      requires Valid()
    {
      var equipped := gm.GetEquippedList(playerIndex);
      forall i :: 0 <= i < slots.Length ==>
        slots[i] == ExpectedSlot(i, equipped, CooldownFlags(gadgetController, equipped), Selected(),
                                 originalColors[i], dimFactor)
    }

    /**
     * Clears every slot, fills the slots of the equipped items that are not
     * cooling down, then dims the enabled slot at the selected index.
     */
    method RefreshHUD(gm: Registry.GameManager)
      requires Valid()
      modifies slots
      ensures Shows(gm)
    {
      var equipped := gm.GetEquippedItems(playerIndex);
      ClearSlots();
      FillSlots(equipped);
      var sel := if gadgetController != null then gadgetController.selectedIndex else -1;
      TintSlots(equipped, CooldownFlags(gadgetController, equipped), sel);
    }

    /** The first loop of RefreshHUD: every slot disabled, without a sprite, in its original colour. */
    method ClearSlots()
      requires Valid()
      modifies slots
      ensures forall k :: 0 <= k < slots.Length ==> slots[k] == Slot(false, None, originalColors[k])
    {
      var i := 0;
      while i < slots.Length
        invariant 0 <= i <= slots.Length
        invariant forall k :: 0 <= k < i ==> slots[k] == Slot(false, None, originalColors[k])
      {
        slots[i] := Slot(false, None, originalColors[i]);
        i := i + 1;
      }
    }

    /** The second loop: each equipped item's slot is enabled with its icon unless it is cooling down. */
    method FillSlots(equipped: seq<string>)
      requires Valid()
      requires forall k :: 0 <= k < slots.Length ==> slots[k] == Slot(false, None, originalColors[k])
      modifies slots
      ensures forall k :: 0 <= k < slots.Length ==>
        slots[k] == ExpectedSlot(k, equipped, CooldownFlags(gadgetController, equipped), -1, originalColors[k], dimFactor)
    {
      ghost var cooling := CooldownFlags(gadgetController, equipped);
      var i := 0;
      while i < |equipped| && i < slots.Length
        invariant 0 <= i <= slots.Length
        invariant forall k :: 0 <= k < i ==>
          slots[k] == ExpectedSlot(k, equipped, cooling, -1, originalColors[k], dimFactor)
        invariant forall k :: i <= k < slots.Length ==> slots[k] == Slot(false, None, originalColors[k])
      {
        var id := equipped[i];
        var onCooldown := gadgetController != null && gadgetController.IsOnCooldown(id);
        slots[i] := slots[i].(enabled := !onCooldown);
        if !onCooldown {
          slots[i] := slots[i].(sprite := IconForID(id));
        }
        i := i + 1;
      }
    }

    /** The third loop: the enabled slot at sel is dimmed, every other enabled slot takes its original colour. */
    method TintSlots(equipped: seq<string>, cooling: seq<bool>, sel: int)
      requires Valid() && |cooling| == |equipped|
      requires forall k :: 0 <= k < slots.Length ==>
        slots[k] == ExpectedSlot(k, equipped, cooling, -1, originalColors[k], dimFactor)
      modifies slots
      ensures forall k :: 0 <= k < slots.Length ==>
        slots[k] == ExpectedSlot(k, equipped, cooling, sel, originalColors[k], dimFactor)
    {
      var i := 0;
      while i < slots.Length
        invariant 0 <= i <= slots.Length
        invariant forall k :: 0 <= k < i ==>
          slots[k] == ExpectedSlot(k, equipped, cooling, sel, originalColors[k], dimFactor)
        invariant forall k :: i <= k < slots.Length ==>
          slots[k] == ExpectedSlot(k, equipped, cooling, -1, originalColors[k], dimFactor)
      {
        if slots[i].enabled {
          if i == sel {
            var c := originalColors[i];
            slots[i] := slots[i].(color := Color(c.r * dimFactor, c.g * dimFactor, c.b * dimFactor, c.a));
          } else {
            slots[i] := slots[i].(color := originalColors[i]);
          }
        }
        i := i + 1;
      }
    }

    /** Start: the first refresh. */
    method Start(gm: Registry.GameManager)
      requires Valid()
      modifies slots
      ensures Shows(gm)
    {
      RefreshHUD(gm);
    }

    /** Update: refreshes exactly when the controller's selection differs from the last one seen. */
    method Update(gm: Registry.GameManager)
      requires Valid()
      modifies this`lastSelected, slots
      ensures var changed := gadgetController != null && gadgetController.selectedIndex != old(lastSelected);
        && (changed ==> lastSelected == gadgetController.selectedIndex && Shows(gm))
        && (!changed ==> lastSelected == old(lastSelected) && slots[..] == old(slots[..]))
    {
      if gadgetController != null {
        var sel := gadgetController.selectedIndex;
        if sel != lastSelected {
          lastSelected := sel;
          RefreshHUD(gm);
        }
      }
    }

    /** Switches to a player, looks up that player's controller among those in the scene, and refreshes. */
    method RefreshForPlayer(idx: int, gm: Registry.GameManager, controllers: seq<Gadgets.GadgetController2D>)
      requires Valid()
      modifies this`playerIndex, this`gadgetController, slots
      ensures playerIndex == idx && gadgetController == Gadgets.FirstForPlayer(controllers, idx)
      ensures Shows(gm)
    {
      playerIndex := idx;
      gadgetController := Gadgets.FirstForPlayer(controllers, idx);
      RefreshHUD(gm);
    }
  }
}
