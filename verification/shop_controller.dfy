/**
 * The shop screen: a player selector, nine item buttons that open a
 * description panel, a purchase button and an equip button, all backed by the
 * registry. UI widgets are reduced to the values the controller writes.
 */
module Shop {
  import opened Common
  import Registry

  /** One item button: the id it shows, its title and its cost in acorns. */
  datatype CatalogueEntry = CatalogueEntry(id: string, title: string, cost: int)

  /** The item buttons, in the order Awake wires them. */
  const Catalogue: seq<CatalogueEntry> := [
    CatalogueEntry(TailSwipeId, "Tail Swipe", 5),
    CatalogueEntry(ClimberClawsId, "Climber Claws", 3),
    CatalogueEntry(CheckpointId, "Checkpoint", 7),
    CatalogueEntry(InvisibilityCloakId, "Invisibility Cloak", 4),
    CatalogueEntry(ShieldId, "Shield", 4),
    CatalogueEntry(BootsId, "Spring Boots", 3),
    CatalogueEntry(WingsuitId, "Wingsuit", 3),
    CatalogueEntry(AcornId, "Dummy Acorn", 4),
    CatalogueEntry(LauncherId, "Acorn Launcher", 6)
  ]

  /** Every button offers a known item. */
  lemma CatalogueItemsKnown(k: nat)
    requires k < |Catalogue|
    ensures Catalogue[k].id in KnownItems
  {
  }

  /** Every known item has a button. */
  lemma KnownItemsOffered()
    ensures KnownItems <= (set k | 0 <= k < |Catalogue| :: Catalogue[k].id)
  {
    var ids := set k | 0 <= k < |Catalogue| :: Catalogue[k].id;
    assert Catalogue[0].id == TailSwipeId && Catalogue[1].id == ClimberClawsId && Catalogue[2].id == CheckpointId;
    assert Catalogue[3].id == InvisibilityCloakId && Catalogue[4].id == ShieldId && Catalogue[5].id == BootsId;
    assert Catalogue[6].id == WingsuitId && Catalogue[7].id == AcornId && Catalogue[8].id == LauncherId;
    assert TailSwipeId in ids && ClimberClawsId in ids && CheckpointId in ids;
    assert InvisibilityCloakId in ids && ShieldId in ids && BootsId in ids;
    assert WingsuitId in ids && AcornId in ids && LauncherId in ids;
  }

  /** The nine buttons offer exactly the nine known items, at a positive price. */
  lemma CatalogueCoversKnownItems()
    ensures (set k | 0 <= k < |Catalogue| :: Catalogue[k].id) == KnownItems
    ensures forall k :: 0 <= k < |Catalogue| ==> Catalogue[k].cost > 0
  {
    forall k | 0 <= k < |Catalogue| {
      CatalogueItemsKnown(k);
    }
    KnownItemsOffered();
  }

  /** No two buttons offer the same item. */
  lemma CatalogueIdsDistinct(j: nat, k: nat)
    requires j < k < |Catalogue|
    ensures Catalogue[j].id != Catalogue[k].id
  {
    var firsts := ['T', 'C', 'C', 'I', 'S', 'B', 'W', 'A', 'L'];
    var seconds := ['a', 'l', 'h', 'n', 'h', 'o', 'i', 'c', 'a'];
    assert forall i :: 0 <= i < |Catalogue| ==> |Catalogue[i].id| >= 2 && Catalogue[i].id[0] == firsts[i] && Catalogue[i].id[1] == seconds[i];
  }

  /** The guard shared by the purchase button and the purchase handler. */
  predicate CanPurchase(alreadyPurchased: bool, acorns: int, cost: int)
  {
    !alreadyPurchased && acorns >= cost
  }

  /** The equip button: hidden, or shown with a caption and an interactable flag. */
  datatype EquipButton = Hidden | Shown(caption: string, interactable: bool)

  /** The equip button for an item, from whether it is purchased and equipped and how many items are equipped. */
  function EquipButtonFor(purchased: bool, equipped: bool, equippedCount: int): (b: EquipButton)
    ensures b.Hidden? <==> !purchased
    ensures b.Shown? ==> (b.caption == "Unequip" <==> equipped) && (b.caption == "Equip" <==> !equipped)
    ensures b.Shown? ==> (b.interactable <==> equipped || equippedCount < Registry.Capacity)
  {
    if !purchased then Hidden
    else Shown(if equipped then "Unequip" else "Equip", if equipped then true else equippedCount < 3)
  }

  /** The item buttons carrying the purchased tint: the catalogue items the player has bought. */
  function TintedItems(purchased: seq<string>): (r: set<string>)
    ensures forall id :: id in r <==> id in KnownItems && id in purchased
  {
    set id | id in KnownItems && id in purchased
  }

  class ShopController {
    /** GameManager.Instance */
    const gm: Registry.GameManager
    var currentPlayer: int
    /** The item shown in the panel; "" until an item button is pressed. */
    var currentItemID: string
    var currentCost: int
    var panelOpen: bool
    var purchaseInteractable: bool
    var equipButton: EquipButton
    /** The two currency labels. */
    var acornTextOne: int
    var acornTextTwo: int
    var tinted: set<string>
    /** Each request to the active HUD to refresh, by player index. */
    var hudRefreshes: seq<int>

    /**
     * Awake, which ends by calling OnEnable itself, followed by the engine's
     * own OnEnable: player one selected, panel closed, everything refreshed,
     * and the HUD asked twice to refresh for player one.
     */
    constructor (manager: Registry.GameManager)
      ensures gm == manager && currentPlayer == 0 && currentItemID == "" && currentCost == 0
      ensures !panelOpen && equipButton == EquipButtonFor(manager.IsPurchased("", 0), manager.IsEquipped("", 0), manager.EquippedCount(0))
      ensures purchaseInteractable == CanPurchase(manager.IsPurchased("", 0), manager.GetAcorns(0), 0)
      ensures acornTextOne == manager.acornsCollectedOne && acornTextTwo == manager.acornsCollectedTwo
      ensures tinted == TintedItems(manager.PurchasedList(0)) && hudRefreshes == [0, 0]
    {
      gm := manager;
      currentPlayer, currentItemID, currentCost := 0, "", 0;
      panelOpen, purchaseInteractable, equipButton := false, false, Hidden;
      acornTextOne, acornTextTwo, tinted, hudRefreshes := 0, 0, {}, [];
      new;
      OnEnable();
      OnEnable();
    }

    /** OnEnable: everything refreshed for the current player, the panel closed, and one HUD refresh for that player. */
    method OnEnable()
      modifies this`acornTextOne, this`acornTextTwo, this`tinted, this`purchaseInteractable, this`equipButton,
               this`panelOpen, this`hudRefreshes
      ensures acornTextOne == gm.acornsCollectedOne && acornTextTwo == gm.acornsCollectedTwo
      ensures tinted == TintedItems(gm.PurchasedList(currentPlayer))
      ensures purchaseInteractable == CanPurchase(gm.IsPurchased(currentItemID, currentPlayer), gm.GetAcorns(currentPlayer), currentCost)
      ensures equipButton == EquipButtonFor(gm.IsPurchased(currentItemID, currentPlayer), gm.IsEquipped(currentItemID, currentPlayer), gm.EquippedCount(currentPlayer))
      ensures !panelOpen && hudRefreshes == old(hudRefreshes) + [currentPlayer]
    {
      RefreshAll();
      panelOpen := false;
      hudRefreshes := hudRefreshes + [currentPlayer];
    }

    /** The currency labels, the item tints and both buttons, refreshed for the current player. */
    /** The currency labels, the item tints and both buttons show what the registry holds for the current player. */
    predicate ShowsRegistry()
      reads this, gm
    {
      && acornTextOne == gm.acornsCollectedOne && acornTextTwo == gm.acornsCollectedTwo
      && tinted == TintedItems(gm.PurchasedList(currentPlayer))
      && purchaseInteractable == CanPurchase(gm.IsPurchased(currentItemID, currentPlayer), gm.GetAcorns(currentPlayer), currentCost)
      && equipButton == EquipButtonFor(gm.IsPurchased(currentItemID, currentPlayer), gm.IsEquipped(currentItemID, currentPlayer), gm.EquippedCount(currentPlayer))
    }

    /** The labels, the tints and both buttons are as they were. */
    twostate predicate DisplayUnchanged()
      reads this
    {
      && acornTextOne == old(acornTextOne) && acornTextTwo == old(acornTextTwo) && tinted == old(tinted)
      && purchaseInteractable == old(purchaseInteractable) && equipButton == old(equipButton)
    }

    method RefreshAll()
      modifies this`acornTextOne, this`acornTextTwo, this`tinted, this`purchaseInteractable, this`equipButton
      ensures acornTextOne == gm.acornsCollectedOne && acornTextTwo == gm.acornsCollectedTwo
      ensures tinted == TintedItems(gm.PurchasedList(currentPlayer))
      ensures purchaseInteractable == CanPurchase(gm.IsPurchased(currentItemID, currentPlayer), gm.GetAcorns(currentPlayer), currentCost)
      ensures equipButton == EquipButtonFor(gm.IsPurchased(currentItemID, currentPlayer), gm.IsEquipped(currentItemID, currentPlayer), gm.EquippedCount(currentPlayer))
      ensures ShowsRegistry()
    {
      UpdateAllCurrencyDisplay();
      UpdateAllItemButtons();
      RefreshPurchaseButton();
      RefreshEquipButton();
    }

    method UpdateAllCurrencyDisplay()
      modifies this`acornTextOne, this`acornTextTwo
      ensures acornTextOne == gm.acornsCollectedOne && acornTextTwo == gm.acornsCollectedTwo
    {
      acornTextOne, acornTextTwo := gm.acornsCollectedOne, gm.acornsCollectedTwo;
    }

    /** Every item button stays interactable; the bought ones get the purchased tint. */
    method UpdateAllItemButtons()
      modifies this`tinted
      ensures tinted == TintedItems(gm.PurchasedList(currentPlayer))
    {
      tinted := TintedItems(gm.PurchasedList(currentPlayer));
    }

    /** The purchase button is interactable iff the item is not yet bought and the player can afford it. */
    method RefreshPurchaseButton()
      modifies this`purchaseInteractable
      ensures purchaseInteractable == CanPurchase(gm.IsPurchased(currentItemID, currentPlayer), gm.GetAcorns(currentPlayer), currentCost)
    {
      var already := gm.IsPurchased(currentItemID, currentPlayer);
      var acorns := gm.GetAcorns(currentPlayer);
      purchaseInteractable := !already && acorns >= currentCost;
    }

    method RefreshEquipButton()
      modifies this`equipButton
      ensures equipButton == EquipButtonFor(gm.IsPurchased(currentItemID, currentPlayer), gm.IsEquipped(currentItemID, currentPlayer), gm.EquippedCount(currentPlayer))
    {
      if !gm.IsPurchased(currentItemID, currentPlayer) {
        equipButton := Hidden;
        return;
      }
      var isEq := gm.IsEquipped(currentItemID, currentPlayer);
      equipButton := Shown(if isEq then "Unequip" else "Equip", if isEq then true else gm.EquippedCount(currentPlayer) < 3);
    }

    /** A player toggle turning on selects that player. */
    method SwitchPlayer(playerIdx: int)
      modifies this
      ensures currentPlayer == playerIdx && !panelOpen
      ensures currentItemID == old(currentItemID) && currentCost == old(currentCost)
      ensures acornTextOne == gm.acornsCollectedOne && acornTextTwo == gm.acornsCollectedTwo
      ensures tinted == TintedItems(gm.PurchasedList(playerIdx))
      ensures purchaseInteractable == CanPurchase(gm.IsPurchased(currentItemID, playerIdx), gm.GetAcorns(playerIdx), currentCost)
      ensures equipButton == EquipButtonFor(gm.IsPurchased(currentItemID, playerIdx), gm.IsEquipped(currentItemID, playerIdx), gm.EquippedCount(playerIdx))
      ensures hudRefreshes == old(hudRefreshes) + [playerIdx]
    {
      currentPlayer := playerIdx;
      RefreshAll();
      panelOpen := false;
      hudRefreshes := hudRefreshes + [currentPlayer];
    }

    /**
     * An item button: pressing the item already shown in the open panel only
     * closes the panel; otherwise the panel opens on that item.
     */
    method ShowItem(itemID: string, cost: int)
      modifies this`currentItemID, this`currentCost, this`panelOpen, this`purchaseInteractable, this`equipButton
      ensures old(panelOpen && currentItemID == itemID) ==>
        !panelOpen && currentItemID == old(currentItemID) && currentCost == old(currentCost)
        && purchaseInteractable == old(purchaseInteractable) && equipButton == old(equipButton)
      ensures !old(panelOpen && currentItemID == itemID) ==>
        && panelOpen && currentItemID == itemID && currentCost == cost
        && purchaseInteractable == CanPurchase(gm.IsPurchased(itemID, currentPlayer), gm.GetAcorns(currentPlayer), cost)
        && equipButton == EquipButtonFor(gm.IsPurchased(itemID, currentPlayer), gm.IsEquipped(itemID, currentPlayer), gm.EquippedCount(currentPlayer))
    {
      if panelOpen && currentItemID == itemID {
        panelOpen := false;
        return;
      }
      currentItemID, currentCost := itemID, cost;
      panelOpen := true;
      RefreshPurchaseButton();
      RefreshEquipButton();
    }

    /** The k-th item button. */
    method ClickItemButton(k: nat)
      requires k < |Catalogue|
      modifies this`currentItemID, this`currentCost, this`panelOpen, this`purchaseInteractable, this`equipButton
      ensures old(panelOpen && currentItemID == Catalogue[k].id) ==>
        !panelOpen && currentItemID == old(currentItemID) && currentCost == old(currentCost)
      ensures !old(panelOpen && currentItemID == Catalogue[k].id) ==>
        && panelOpen && currentItemID == Catalogue[k].id && currentCost == Catalogue[k].cost
        && purchaseInteractable == CanPurchase(gm.IsPurchased(currentItemID, currentPlayer), gm.GetAcorns(currentPlayer), currentCost)
        && equipButton == EquipButtonFor(gm.IsPurchased(currentItemID, currentPlayer), gm.IsEquipped(currentItemID, currentPlayer), gm.EquippedCount(currentPlayer))
    {
      ShowItem(Catalogue[k].id, Catalogue[k].cost);
    }

    /**
     * The purchase button: a no-op unless the item is unbought and affordable;
     * otherwise the item is recorded and its cost paid, which never leaves the
     * player's currency negative.
     */
    method HandlePurchase()
      modifies this`acornTextOne, this`acornTextTwo, this`tinted, this`purchaseInteractable, this`equipButton,
               this`hudRefreshes, gm
      ensures var ok := CanPurchase(old(gm.IsPurchased(currentItemID, currentPlayer)), old(gm.GetAcorns(currentPlayer)), currentCost);
        && (ok ==> && gm.PurchasedList(currentPlayer) == old(gm.PurchasedList(currentPlayer)) + [currentItemID]
                   && gm.GetAcorns(currentPlayer) == old(gm.GetAcorns(currentPlayer)) - currentCost
                   && gm.GetAcorns(currentPlayer) >= 0
                   && hudRefreshes == old(hudRefreshes) + [currentPlayer]
                   && ShowsRegistry())
        && (!ok ==> && gm.PurchasedList(currentPlayer) == old(gm.PurchasedList(currentPlayer))
                    && gm.GetAcorns(currentPlayer) == old(gm.GetAcorns(currentPlayer))
                    && hudRefreshes == old(hudRefreshes)
                    && DisplayUnchanged())
      ensures gm.GetEquippedList(currentPlayer) == old(gm.GetEquippedList(currentPlayer))
      ensures gm.PlayerUnchanged(if currentPlayer == 0 then 1 else 0)
      ensures currentPlayer == old(currentPlayer) && currentItemID == old(currentItemID) && currentCost == old(currentCost)
      ensures panelOpen == old(panelOpen)
      ensures old(gm.Valid()) ==> gm.Valid()
    {
      var acorns := gm.GetAcorns(currentPlayer);
      if acorns < currentCost || gm.IsPurchased(currentItemID, currentPlayer) {
        return;
      }
      gm.AddPurchase(currentItemID, currentPlayer);
      gm.SetAcorns(currentPlayer, acorns - currentCost);
      RefreshAll();
      hudRefreshes := hudRefreshes + [currentPlayer];
    }

    /** The equip button: unequips an equipped item, otherwise asks the registry to equip it. */
    method HandleEquip()
      modifies this`equipButton, this`hudRefreshes, gm
      ensures var id, p := currentItemID, currentPlayer;
        && (old(gm.IsEquipped(id, p)) ==> gm.GetEquippedList(p) == Registry.RemoveFirst(old(gm.GetEquippedList(p)), id))
        && (!old(gm.IsEquipped(id, p)) ==>
              gm.GetEquippedList(p) == if id in old(gm.PurchasedList(p)) && |old(gm.GetEquippedList(p))| < Registry.Capacity
                                       then old(gm.GetEquippedList(p)) + [id] else old(gm.GetEquippedList(p)))
      ensures gm.PurchasedList(currentPlayer) == old(gm.PurchasedList(currentPlayer))
      ensures gm.GetAcorns(currentPlayer) == old(gm.GetAcorns(currentPlayer))
      ensures gm.PlayerUnchanged(if currentPlayer == 0 then 1 else 0)
      ensures equipButton == EquipButtonFor(gm.IsPurchased(currentItemID, currentPlayer), gm.IsEquipped(currentItemID, currentPlayer), gm.EquippedCount(currentPlayer))
      ensures hudRefreshes == old(hudRefreshes) + [currentPlayer]
      ensures old(gm.Valid()) ==> gm.Valid()
    {
      if gm.IsEquipped(currentItemID, currentPlayer) {
        gm.Unequip(currentItemID, currentPlayer);
      } else {
        gm.Equip(currentItemID, currentPlayer);
      }
      RefreshEquipButton();
      hudRefreshes := hudRefreshes + [currentPlayer];
    }
  }
}
