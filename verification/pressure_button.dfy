/**
 * A floor button pressed by boxes. It counts the boxes on it; the first box
 * switches the primary object off and the optional secondary on, and the
 * button switches them back once no box is left.
 */
module Pressure {
  import opened Common

  /** The count after one box contact: entries add one, exits remove one but never below zero. */
  function NextCount(count: int, entering: bool): (c: int)
    requires count >= 0
    ensures c >= 0
    ensures entering ==> c == count + 1
    ensures !entering ==> c == if count > 0 then count - 1 else 0
  {
    if entering then count + 1 else if count - 1 > 0 then count - 1 else 0
  }

  /** The count after a run of box contacts (true = a box enters). */
  function CountAfter(count: int, contacts: seq<bool>): (c: int)
    requires count >= 0
    ensures c >= 0
    decreases |contacts|
  {
    if contacts == [] then count else CountAfter(NextCount(count, contacts[0]), contacts[1..])
  }

  /** Every box that entered and has not left is counted: the count is at least the surplus of entries over exits. */
  lemma {:induction false} CountCoversBoxesOnButton(count: int, contacts: seq<bool>)
    requires count >= 0
    ensures CountAfter(count, contacts) >= count + Surplus(contacts)
    decreases |contacts|
  {
    if contacts != [] {
      CountCoversBoxesOnButton(NextCount(count, contacts[0]), contacts[1..]);
    }
  }

  /** Entries minus exits. */
  function Surplus(contacts: seq<bool>): int
  {
    if contacts == [] then 0 else (if contacts[0] then 1 else -1) + Surplus(contacts[1..])
  }

  class PressureButton {
    const primary: GameObject?
    const secondary: GameObject?
    var pressCount: int
    /** The argument of every SetStates call so far, in order. */
    ghost var writes: seq<bool>

    /** The objects as SetStates(isPressed) leaves them. */
    ghost predicate Shows(isPressed: bool)
      reads primary, secondary
    {
      && (secondary != null ==> secondary.activeSelf == isPressed)
      && (primary != null && primary != secondary ==> primary.activeSelf == !isPressed)
    }

    /** The count is never negative, and once the objects have been written they show whether a box is on the button. */
    ghost predicate Valid()
      reads this, primary, secondary
    {
      && pressCount >= 0
      && (writes != [] ==> Shows(pressCount > 0))
    }

    constructor (p: GameObject?, s: GameObject?)
      ensures primary == p && secondary == s && pressCount == 0 && writes == []
      ensures Valid()
    {
      primary, secondary := p, s;
      pressCount := 0;
      writes := [];
    }

    /** Pressed: primary off, secondary on. A missing primary throws before anything is written. */
    method SetStates(isPressed: bool)
      requires primary != null
      modifies this`writes, primary, secondary
      ensures Shows(isPressed) && writes == old(writes) + [isPressed]
      ensures secondary != null && secondary != primary ==> primary.activeSelf == !isPressed
    {
      primary.SetActive(!isPressed);
      if secondary != null {
        secondary.SetActive(isPressed);
      }
      writes := writes + [isPressed];
    }

    method OnTriggerEnter2D(tag: string)
      requires Valid() && primary != null
      modifies this`pressCount, this`writes, primary, secondary
      ensures Valid()
      ensures pressCount == if tag == BoxTag then NextCount(old(pressCount), true) else old(pressCount)
      ensures writes == old(writes) + (if tag == BoxTag && pressCount == 1 then [true] else [])
      ensures !(tag == BoxTag && pressCount == 1) ==> unchanged(primary) && (secondary != null ==> unchanged(secondary))
    {
      if tag == BoxTag {
        pressCount := pressCount + 1;
        if pressCount == 1 {
          SetStates(true);
        }
      }
    }

    method OnTriggerExit2D(tag: string)
      requires Valid() && primary != null
      modifies this`pressCount, this`writes, primary, secondary
      ensures Valid()
      ensures pressCount == if tag == BoxTag then NextCount(old(pressCount), false) else old(pressCount)
      ensures writes == old(writes) + (if tag == BoxTag && pressCount == 0 then [false] else [])
      ensures !(tag == BoxTag && pressCount == 0) ==> unchanged(primary) && (secondary != null ==> unchanged(secondary))
    {
      if tag == BoxTag {
        pressCount := if pressCount - 1 > 0 then pressCount - 1 else 0;
        if pressCount == 0 {
          SetStates(false);
        }
      }
    }
  }
}
