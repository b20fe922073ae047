/**
 * A player's acorn counter in a level: every acorn pickup touched is counted,
 * shown on the player's text and deactivated.
 */
module Collecting {
  import opened Common

  /** How many of the given contact tags are acorn pickups. */
  function AcornsIn(tags: seq<string>): nat
  {
    if tags == [] then 0
    else AcornsIn(tags[..|tags| - 1]) + (if tags[|tags| - 1] == AcornTag then 1 else 0)
  }

  /** Counting distributes over consecutive runs of contacts, and never exceeds the contacts. */
  lemma {:induction false} AcornsInAppend(a: seq<string>, b: seq<string>)
    ensures AcornsIn(a + b) == AcornsIn(a) + AcornsIn(b)
    ensures AcornsIn(b) <= |b|
    decreases |b|
  {
    if b == [] {
      assert a + b == a;
    } else {
      var b' := b[..|b| - 1];
      assert (a + b)[..|a + b| - 1] == a + b';
      assert (a + b)[|a + b| - 1] == b[|b| - 1];
      AcornsInAppend(a, b');
    }
  }

  class AcornCollector {
    /** Whether a UI text was assigned in the inspector. */
    const hasText: bool
    var acornCount: int
    /** The number the text shows; None until it is first written. */
    var shownCount: Option<int>
    /** Every tag this collector's trigger has entered, in order. */
    ghost var contacts: seq<string>

    /** The count is the number of acorn pickups touched so far. */
    ghost predicate Valid()
      reads this
    {
      acornCount == AcornsIn(contacts)
    }

    constructor (textAssigned: bool)
      ensures hasText == textAssigned && acornCount == 0 && shownCount == None && contacts == []
      ensures Valid()
    {
      hasText, acornCount, shownCount := textAssigned, 0, None;
      contacts := [];
    }

    /** Start: shows the count, or only logs an error when no text is assigned. */
    method Start()
      modifies this`shownCount
      ensures shownCount == if hasText then Some(acornCount) else old(shownCount)
    {
      if !hasText {
        return;
      }
      shownCount := Some(acornCount);
    }

    /**
     * The trigger enters a collider with the given tag. An acorn is counted,
     * shown and deactivated; without a text the display write throws after the
     * count, so the pickup stays active.
     */
    method OnTriggerEnter2D(tag: string, pickup: GameObject)
      requires Valid()
      modifies this`acornCount, this`shownCount, this`contacts, pickup
      ensures Valid() && contacts == old(contacts) + [tag]
      ensures acornCount == old(acornCount) + (if tag == AcornTag then 1 else 0)
      ensures tag == AcornTag && hasText ==> shownCount == Some(acornCount) && !pickup.activeSelf
      ensures !(tag == AcornTag && hasText) ==> shownCount == old(shownCount) && pickup.activeSelf == old(pickup.activeSelf)
    {
      AcornsInAppend(contacts, [tag]);
      contacts := contacts + [tag];
      if tag == AcornTag {
        acornCount := acornCount + 1;
        if !hasText {
          return;
        }
        shownCount := Some(acornCount);
        pickup.SetActive(false);
      }
    }

    /** The count handed to the game manager when the level ends. */
    function GetAcornCount(): (n: int)
      reads this
      requires Valid()
      ensures n == AcornsIn(contacts) && 0 <= n <= |contacts|
    {
      AcornsInAppend([], contacts);
      assert [] + contacts == contacts;
      acornCount
    }
  }
}
