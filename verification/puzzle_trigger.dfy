/**
 * The office puzzle: four floor buttons, of which player one must cover the
 * first three and player two the last three. The trigger highlights the
 * entering player's three buttons and, every frame, turns each player's
 * success object on exactly while all of that player's buttons are covered.
 */
module Puzzle {
  import opened Common

  function Min(a: int, b: int): int { if a < b then a else b }

  /** A floor button as the trigger sees it: whether a box covers it, and whether it is drawn highlighted. */
  class PuzzleButton {
    var isPressed: bool
    var visualActive: bool

    /** Awake draws the button dimmed. */
    constructor ()
      ensures !isPressed && !visualActive
    {
      isPressed, visualActive := false, false;
    }

    /** `covered`: whether a Box-tagged collider overlaps the button this frame. */
    method CheckPressed(covered: bool)
      modifies this`isPressed
      ensures isPressed == covered
    {
      isPressed := covered;
    }

    method SetActiveVisual(on: bool)
      modifies this`visualActive
      ensures visualActive == on
    {
      visualActive := on;
    }
  }

  /** The first three buttons (fewer if there are fewer). */
  function FirstSet<T>(s: seq<T>): (r: seq<T>)
    ensures |r| == Min(3, |s|)
    ensures forall k :: 0 <= k < |r| ==> r[k] == s[k]
  {
    s[..Min(3, |s|)]
  }

  /** The three buttons after the first (fewer if there are fewer). */
  function SecondSet<T>(s: seq<T>): (r: seq<T>)
    ensures |r| == Min(4, |s|) - Min(1, |s|)
    ensures forall k :: 0 <= k < |r| ==> r[k] == s[k + 1]
  {
    s[Min(1, |s|)..Min(4, |s|)]
  }

  /** With the four buttons the puzzle asks for, the two sets share exactly the middle two. */
  lemma SetsOfFourShareTheMiddle<T>(s: seq<T>)
    requires |s| == 4
    ensures FirstSet(s) == [s[0], s[1], s[2]] && SecondSet(s) == [s[1], s[2], s[3]]
  {
  }

  predicate Highlighted(i: int, start: int)
  {
    start <= i < start + 3
  }

  /** Every button of the set is pressed. */
  predicate AllPressed(set_: seq<PuzzleButton>)
    reads set_
  {
    forall k :: 0 <= k < |set_| ==> set_[k].isPressed
  }

  class PuzzleTrigger {
    const buttons: array<PuzzleButton>
    const playerOneSuccessObject: GameObject?
    const playerTwoSuccessObject: GameObject?
    const oneSet: seq<PuzzleButton>
    const twoSet: seq<PuzzleButton>
    /** 0 or 1 once a player has entered; -1 before. */
    var activeStart: int

    /** The sets are cut from the buttons, which are distinct objects. */
    ghost predicate Valid()
      reads this, buttons
    {
      && oneSet == FirstSet(buttons[..]) && twoSet == SecondSet(buttons[..])
      && forall i, j :: 0 <= i < j < buttons.Length ==> buttons[i] != buttons[j]
    }

    /** Awake: caches the two players' sets. */
    constructor (bs: seq<PuzzleButton>, one: GameObject?, two: GameObject?)
      requires forall i, j :: 0 <= i < j < |bs| ==> bs[i] != bs[j]
      ensures Valid() && fresh(buttons) && buttons[..] == bs
      ensures playerOneSuccessObject == one && playerTwoSuccessObject == two && activeStart == -1
    {
      var a := new PuzzleButton[|bs|](i requires 0 <= i < |bs| => bs[i]);
      assert a[..] == bs;
      buttons := a;
      playerOneSuccessObject, playerTwoSuccessObject := one, two;
      oneSet, twoSet := FirstSet(bs), SecondSet(bs);
      activeStart := -1;
    }

    /** Highlights exactly the three buttons from `startIndex` and dims the rest. */
    method ShowVisualSet(startIndex: int)
      requires Valid()
      modifies this`activeStart, set i | 0 <= i < buttons.Length :: buttons[i]
      ensures activeStart == startIndex
      ensures forall i :: 0 <= i < buttons.Length ==> buttons[i].visualActive == Highlighted(i, startIndex)
      ensures forall i :: 0 <= i < buttons.Length ==> buttons[i].isPressed == old(buttons[i].isPressed)
    {
      activeStart := startIndex;
      var i := 0;
      while i < buttons.Length
        invariant 0 <= i <= buttons.Length && activeStart == startIndex
        invariant forall k :: 0 <= k < i ==> buttons[k].visualActive == Highlighted(k, startIndex)
        invariant forall k :: 0 <= k < buttons.Length ==> buttons[k].isPressed == old(buttons[k].isPressed)
      {
        buttons[i].SetActiveVisual(Highlighted(i, startIndex));
        i := i + 1;
      }
    }

    /** Player one's tag shows the first set, player two's the second; other colliders change nothing. */
    method OnTriggerEnter2D(tag: string)
      requires Valid()
      modifies this`activeStart, set i | 0 <= i < buttons.Length :: buttons[i]
      ensures tag == PlayerTag ==> activeStart == 0
      ensures tag == PlayerTwoTag ==> activeStart == 1
      ensures tag == PlayerTag || tag == PlayerTwoTag ==>
        forall i :: 0 <= i < buttons.Length ==> buttons[i].visualActive == Highlighted(i, activeStart)
      ensures tag != PlayerTag && tag != PlayerTwoTag ==>
        activeStart == old(activeStart) && forall i :: 0 <= i < buttons.Length ==> unchanged(buttons[i])
      ensures forall i :: 0 <= i < buttons.Length ==> buttons[i].isPressed == old(buttons[i].isPressed)
    {
      if tag == PlayerTag {
        ShowVisualSet(0);
      } else if tag == PlayerTwoTag {
        ShowVisualSet(1);
      }
    }

    /** Sets the success object to whether the whole set is pressed; a missing object is skipped. */
    method UpdateSuccessState(set_: seq<PuzzleButton>, successObj: GameObject?)
      modifies successObj
      ensures successObj != null ==> successObj.activeSelf == AllPressed(set_)
    {
      if successObj == null {
        return;
      }
      var allPressed := true;
      var k := 0;
      while k < |set_| && allPressed
        invariant 0 <= k <= |set_|
        invariant allPressed <==> forall m :: 0 <= m < k ==> set_[m].isPressed
      {
        allPressed := set_[k].isPressed;
        k := k + 1;
      }
      if successObj.activeSelf != allPressed {
        successObj.SetActive(allPressed);
      }
    }

    /**
     * One frame: every button re-reads whether it is covered (`covered[i]`
     * for button i), then each player's success object follows that
     * player's set.
     */
    method Update(covered: seq<bool>)
      requires Valid() && |covered| == buttons.Length
      modifies set i | 0 <= i < buttons.Length :: buttons[i]
      modifies playerOneSuccessObject, playerTwoSuccessObject
      ensures forall i :: 0 <= i < buttons.Length ==> buttons[i].isPressed == covered[i]
      ensures playerTwoSuccessObject != null ==>
        playerTwoSuccessObject.activeSelf == forall k :: 1 <= k < Min(4, |covered|) ==> covered[k]
      ensures playerOneSuccessObject != null && playerOneSuccessObject != playerTwoSuccessObject ==>
        playerOneSuccessObject.activeSelf == forall k :: 0 <= k < Min(3, |covered|) ==> covered[k]
    {
      var i := 0;
      while i < buttons.Length
        invariant 0 <= i <= buttons.Length
        invariant forall k :: 0 <= k < i ==> buttons[k].isPressed == covered[k]
      {
        buttons[i].CheckPressed(covered[i]);
        i := i + 1;
      }
      SetsFollowCoverage(covered);
      UpdateSuccessState(oneSet, playerOneSuccessObject);
      UpdateSuccessState(twoSet, playerTwoSuccessObject);
    }

    /** Once the buttons mirror `covered`, each set is all pressed exactly when its range is all covered. */
    lemma SetsFollowCoverage(covered: seq<bool>)
      requires Valid() && |covered| == buttons.Length
      requires forall i :: 0 <= i < buttons.Length ==> buttons[i].isPressed == covered[i]
      ensures AllPressed(oneSet) <==> forall k :: 0 <= k < Min(3, |covered|) ==> covered[k]
      ensures AllPressed(twoSet) <==> forall k :: 1 <= k < Min(4, |covered|) ==> covered[k]
    {
      if forall k :: 1 <= k < Min(4, |covered|) ==> covered[k] {
        forall m | 0 <= m < |twoSet|
          ensures twoSet[m].isPressed
        {
          assert twoSet[m] == buttons[m + 1];
        }
      }
      if AllPressed(twoSet) {
        forall k | 1 <= k < Min(4, |covered|)
          ensures covered[k]
        {
          assert twoSet[k - 1] == buttons[k];
        }
      }
    }
  }
}
