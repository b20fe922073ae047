/**
 * The process-wide game state: each player's purchases, equipped gadgets
 * (at most three, in slot order), currency and teleporter position, plus the
 * shop counter that drives which map loads next.
 */
module Registry {
  import opened Common

  /** Most gadgets a player may have equipped at once. */
  const Capacity: nat := 3

  predicate NoDuplicates(s: seq<string>)
  {
    forall i, j :: 0 <= i < j < |s| ==> s[i] != s[j]
  }

  /**
   * What the registry's methods keep true of one player's lists: purchases
   * and equipped items are duplicate-free, at most three items are equipped,
   * and only purchased items are.
   */
  predicate Consistent(equipped: seq<string>, purchased: seq<string>)
  {
    && NoDuplicates(purchased)
    && NoDuplicates(equipped)
    && |equipped| <= Capacity
    && (forall x :: x in equipped ==> x in purchased)
  }

  /** `List<string>.Remove`: drops the first occurrence of x, if there is one. */
  function RemoveFirst(s: seq<string>, x: string): seq<string>
  {
    if s == [] then []
    else if s[0] == x then s[1..]
    else [s[0]] + RemoveFirst(s[1..], x)
  }

  /** Position of the first occurrence of x. */
  function IndexOf(s: seq<string>, x: string): (i: nat)
    requires x in s
    ensures i < |s| && s[i] == x && x !in s[..i]
  {
    if s[0] == x then 0 else 1 + IndexOf(s[1..], x)
  }

  /**
   * Removing an absent item changes nothing; removing a present one cuts out
   * its first occurrence and keeps the rest in order, so the slots after it
   * move down by one and no gap is left.
   */
  lemma {:induction false} RemoveFirstCutsFirstOccurrence(s: seq<string>, x: string)
    ensures x !in s ==> RemoveFirst(s, x) == s
    ensures x in s ==> RemoveFirst(s, x) == s[..IndexOf(s, x)] + s[IndexOf(s, x) + 1..]
  {
    if s != [] && s[0] != x {
      RemoveFirstCutsFirstOccurrence(s[1..], x);
      if x in s {
        assert x in s[1..];
        var i := IndexOf(s[1..], x);
        assert s[..i + 1] == [s[0]] + s[1..][..i];
        assert s[i + 2..] == s[1..][i + 1..];
      }
    }
  }

  /** Cutting out position i shifts every later element down by one. */
  lemma CutAt(s: seq<string>, i: nat, k: nat)
    requires i < |s|
    ensures |s[..i] + s[i + 1..]| == |s| - 1
    ensures k < |s| - 1 ==> (s[..i] + s[i + 1..])[k] == s[if k < i then k else k + 1]
  {
  }

  lemma CutKeepsDuplicateFree(s: seq<string>, i: nat)
    requires i < |s| && NoDuplicates(s)
    ensures NoDuplicates(s[..i] + s[i + 1..])
  {
    var r := s[..i] + s[i + 1..];
    forall a, b | 0 <= a < b < |r|
      ensures r[a] != r[b]
    {
      CutAt(s, i, a);
      CutAt(s, i, b);
    }
  }

  lemma CutMembers(s: seq<string>, i: nat, y: string)
    requires i < |s| && NoDuplicates(s)
    ensures y in s[..i] + s[i + 1..] <==> y in s && y != s[i]
  {
    var r := s[..i] + s[i + 1..];
    CutAt(s, i, 0);
    if y in r {
      var k :| 0 <= k < |r| && r[k] == y;
      CutAt(s, i, k);
    }
    if y in s && y != s[i] {
      var k :| 0 <= k < |s| && s[k] == y;
      var j := if k < i then k else k - 1;
      CutAt(s, i, j);
    }
  }

  /** On a duplicate-free list, removal takes out exactly x and keeps the list duplicate-free. */
  lemma {:induction false} RemoveFirstFromDuplicateFree(s: seq<string>, x: string)
    requires NoDuplicates(s)
    ensures NoDuplicates(RemoveFirst(s, x))
    ensures forall y :: y in RemoveFirst(s, x) <==> y in s && y != x
    ensures |RemoveFirst(s, x)| == if x in s then |s| - 1 else |s|
  {
    RemoveFirstCutsFirstOccurrence(s, x);
    if x in s {
      var i := IndexOf(s, x);
      CutAt(s, i, 0);
      CutKeepsDuplicateFree(s, i);
      forall y
        ensures y in RemoveFirst(s, x) <==> y in s && y != x
      {
        CutMembers(s, i, y);
      }
    }
  }

  class GameManager {
    var teleporterPositions: array<Vec3>

    // Per-player purchase histories
    var purchasedItemsOne: seq<string>
    var purchasedItemsTwo: seq<string>

    // Per-player currency
    var acornsCollectedOne: int
    var acornsCollectedTwo: int

    /** Drives which map loads after the shop. */
    var currentShop: int
    var winner: int

    // Per-player equipped lists, in slot order
    var equippedItemsOne: seq<string>
    var equippedItemsTwo: seq<string>

    constructor ()
      ensures fresh(teleporterPositions) && teleporterPositions.Length == 2
      ensures forall i :: 0 <= i < 2 ==> teleporterPositions[i] == Origin
      ensures purchasedItemsOne == purchasedItemsTwo == equippedItemsOne == equippedItemsTwo == []
      ensures acornsCollectedOne == acornsCollectedTwo == 0
      ensures currentShop == 0 && winner == 0
      ensures Valid()
    {
      teleporterPositions := new Vec3[2](_ => Origin);
      purchasedItemsOne, purchasedItemsTwo := [], [];
      acornsCollectedOne, acornsCollectedTwo := 0, 0;
      currentShop, winner := 0, 0;
      equippedItemsOne, equippedItemsTwo := [], [];
    }

    /** The invariant the methods keep; the lists are public fields, so it holds only through them. */
    ghost predicate Valid()
      reads this
    {
      && teleporterPositions.Length == 2
      && Consistent(equippedItemsOne, purchasedItemsOne)
      && Consistent(equippedItemsTwo, purchasedItemsTwo)
    }

    // Player index 0 selects player one's fields; every other index selects player two's.

    function PurchasedList(playerIndex: int): seq<string>
      reads this
    {
      if playerIndex == 0 then purchasedItemsOne else purchasedItemsTwo
    }

    function GetEquippedList(playerIndex: int): seq<string>
      reads this
    {
      if playerIndex == 0 then equippedItemsOne else equippedItemsTwo
    }

    /** True when the state of player q is exactly as it was: lists and currency. */
    twostate predicate PlayerUnchanged(q: int)
      reads this
    {
      && PurchasedList(q) == old(PurchasedList(q))
      && GetEquippedList(q) == old(GetEquippedList(q))
      && GetAcorns(q) == old(GetAcorns(q))
    }

    // ---- Teleporter slots ----

    method SetTeleportPosition(playerIndex: int, pos: Vec3)
      requires 0 <= playerIndex < teleporterPositions.Length
      modifies teleporterPositions
      ensures GetTeleportPosition(playerIndex) == pos
      ensures forall i :: 0 <= i < teleporterPositions.Length && i != playerIndex ==>
        teleporterPositions[i] == old(teleporterPositions[i])
    {
      teleporterPositions[playerIndex] := pos;
    }

    /** The marker position stored for that player's slot. */
    function GetTeleportPosition(playerIndex: int): (p: Vec3)
      requires 0 <= playerIndex < teleporterPositions.Length
      reads this, teleporterPositions
      ensures p == teleporterPositions[playerIndex]
    {
      teleporterPositions[playerIndex]
    }

    // ---- Currency ----

    function GetAcorns(playerIndex: int): (r: int)
      reads this
      ensures playerIndex == 0 ==> r == acornsCollectedOne
      ensures playerIndex != 0 ==> r == acornsCollectedTwo
    {
      if playerIndex == 0 then acornsCollectedOne else acornsCollectedTwo
    }

    method SetAcorns(playerIndex: int, amount: int)
      modifies this
      ensures GetAcorns(playerIndex) == amount
      ensures PlayerUnchanged(if playerIndex == 0 then 1 else 0)
      ensures PurchasedList(playerIndex) == old(PurchasedList(playerIndex))
      ensures GetEquippedList(playerIndex) == old(GetEquippedList(playerIndex))
      ensures teleporterPositions == old(teleporterPositions)
      ensures currentShop == old(currentShop) && winner == old(winner)
      ensures old(Valid()) ==> Valid()
    {
      if playerIndex == 0 {
        acornsCollectedOne := amount;
      } else {
        acornsCollectedTwo := amount;
      }
    }

    // ---- Purchases ----

    function IsPurchased(itemID: string, playerIndex: int): (r: bool)
      reads this
      ensures r <==> itemID in PurchasedList(playerIndex)
    {
      if playerIndex == 0 then itemID in purchasedItemsOne else itemID in purchasedItemsTwo
    }

    /** Idempotent: appends only when the item is not already in that player's list. */
    method AddPurchase(itemID: string, playerIndex: int)
      modifies this
      ensures itemID in old(PurchasedList(playerIndex)) ==> PurchasedList(playerIndex) == old(PurchasedList(playerIndex))
      ensures itemID !in old(PurchasedList(playerIndex)) ==>
        PurchasedList(playerIndex) == old(PurchasedList(playerIndex)) + [itemID]
      ensures GetEquippedList(playerIndex) == old(GetEquippedList(playerIndex))
      ensures GetAcorns(playerIndex) == old(GetAcorns(playerIndex))
      ensures PlayerUnchanged(if playerIndex == 0 then 1 else 0)
      ensures teleporterPositions == old(teleporterPositions)
      ensures currentShop == old(currentShop) && winner == old(winner)
      ensures old(Valid()) ==> Valid()
    {
      if playerIndex == 0 {
        if itemID !in purchasedItemsOne {
          purchasedItemsOne := purchasedItemsOne + [itemID];
        }
      } else {
        if itemID !in purchasedItemsTwo {
          purchasedItemsTwo := purchasedItemsTwo + [itemID];
        }
      }
    }

    // ---- Equipment ----

    function IsEquipped(itemID: string, playerIndex: int): (r: bool)
      reads this
      ensures r <==> itemID in GetEquippedList(playerIndex)
    {
      itemID in GetEquippedList(playerIndex)
    }

    function EquippedCount(playerIndex: int): (r: nat)
      reads this
      ensures r == |GetEquippedList(playerIndex)|
      ensures Valid() ==> r <= Capacity
    {
      |GetEquippedList(playerIndex)|
    }

    /** Appends only if not equipped, purchased and fewer than three are equipped; otherwise nothing changes. */
    method Equip(itemID: string, playerIndex: int)
      modifies this
      ensures
        var ok := itemID !in old(GetEquippedList(playerIndex))
                  && itemID in old(PurchasedList(playerIndex))
                  && |old(GetEquippedList(playerIndex))| < Capacity;
        GetEquippedList(playerIndex) == if ok then old(GetEquippedList(playerIndex)) + [itemID]
                                        else old(GetEquippedList(playerIndex))
      ensures PurchasedList(playerIndex) == old(PurchasedList(playerIndex))
      ensures GetAcorns(playerIndex) == old(GetAcorns(playerIndex))
      ensures PlayerUnchanged(if playerIndex == 0 then 1 else 0)
      ensures teleporterPositions == old(teleporterPositions)
      ensures currentShop == old(currentShop) && winner == old(winner)
      ensures old(Valid()) ==> Valid()
    {
      var eq := GetEquippedList(playerIndex);
      if itemID !in eq && IsPurchased(itemID, playerIndex) && |eq| < Capacity {
        if playerIndex == 0 {
          equippedItemsOne := eq + [itemID];
        } else {
          equippedItemsTwo := eq + [itemID];
        }
      }
    }

    /** Removes the item if present, keeping the order of the rest; a no-op if absent. */
    method Unequip(itemID: string, playerIndex: int)
      modifies this
      ensures GetEquippedList(playerIndex) == RemoveFirst(old(GetEquippedList(playerIndex)), itemID)
      ensures PurchasedList(playerIndex) == old(PurchasedList(playerIndex))
      ensures GetAcorns(playerIndex) == old(GetAcorns(playerIndex))
      ensures PlayerUnchanged(if playerIndex == 0 then 1 else 0)
      ensures teleporterPositions == old(teleporterPositions)
      ensures currentShop == old(currentShop) && winner == old(winner)
      ensures old(Valid()) ==> Valid() && itemID !in GetEquippedList(playerIndex)
    {
      if playerIndex == 0 {
        if Consistent(equippedItemsOne, purchasedItemsOne) {
          RemoveFirstFromDuplicateFree(equippedItemsOne, itemID);
        }
        equippedItemsOne := RemoveFirst(equippedItemsOne, itemID);
      } else {
        if Consistent(equippedItemsTwo, purchasedItemsTwo) {
          RemoveFirstFromDuplicateFree(equippedItemsTwo, itemID);
        }
        equippedItemsTwo := RemoveFirst(equippedItemsTwo, itemID);
      }
    }

    /** A copy of the equipped list: a sequence value, so no later change to the registry reaches it. */
    method GetEquippedItems(playerIndex: int) returns (items: seq<string>)
      ensures items == GetEquippedList(playerIndex)
    {
      items := if playerIndex == 0 then equippedItemsOne else equippedItemsTwo;
    }

    /** Empties both players' lists, zeroes currency and teleporters, and restarts shop progression at 1. */
    method ResetGameState()
      modifies this
      ensures fresh(teleporterPositions) && teleporterPositions.Length == 2
      ensures forall i :: 0 <= i < 2 ==> teleporterPositions[i] == Origin
      ensures purchasedItemsOne == purchasedItemsTwo == equippedItemsOne == equippedItemsTwo == []
      ensures acornsCollectedOne == acornsCollectedTwo == 0
      ensures currentShop == 1 && winner == old(winner)
      ensures Valid()
    {
      teleporterPositions := new Vec3[2](_ => Origin);
      purchasedItemsOne, purchasedItemsTwo := [], [];
      equippedItemsOne, equippedItemsTwo := [], [];
      acornsCollectedOne, acornsCollectedTwo := 0, 0;
      currentShop := 1;
    }
  }
}
