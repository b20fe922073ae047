/**
 * The factory elevator: a player stepping in becomes its rider and is offered
 * a call button; pressing it moves the rider to a fixed destination. The
 * "troll" button does the same and also shows a joke.
 */
module Elevators {
  import opened Common
  import Player

  const TrollMessage: string := "Lol, you thought it was gonna work?"

  class ElevatorController {
    /** The call button's and the joke text's game objects; null when not assigned. */
    const callButton: GameObject?
    const trollText: GameObject?
    const teleportDestination: Vec3
    var enabled: bool
    /** The player in the elevator. */
    var currentRider: Player.PlayerController?
    var trollMessage: string

    /** Both UI references were assigned in the inspector. */
    predicate Assigned()
      reads this
    {
      callButton != null && trollText != null
    }

    /**
     * The two UI objects are distinct, and once both are in place the call
     * button shows exactly while there is a rider. An elevator missing one of
     * them still gets triggers and clicks, but its handlers stop where the
     * missing reference is first used, so no such link holds for it.
     */
    ghost predicate Valid()
      reads this, callButton
    {
      && (callButton != null ==> callButton != trollText)
      && (Assigned() ==> (callButton.activeSelf <==> currentRider != null))
    }

    /** The call button, if assigned, was not touched. */
    twostate predicate ButtonKept()
      reads callButton
    {
      callButton != null ==> unchanged(callButton)
    }

    /** The joke text, if assigned, was not touched. */
    twostate predicate TextKept()
      reads trollText
    {
      trollText != null ==> unchanged(trollText)
    }

    /**
     * Awake: without both UI references the component disables itself;
     * otherwise both start hidden.
     */
    constructor (button: GameObject?, text: GameObject?)
      requires button != null && text != null ==> button != text
      modifies button, text
      ensures callButton == button && trollText == text && teleportDestination == Vec3(0.0, 5.0, 0.0)
      ensures currentRider == null && trollMessage == ""
      ensures enabled <==> Assigned()
      ensures Valid()
      ensures enabled ==> !callButton.activeSelf && !trollText.activeSelf
    {
      callButton, trollText := button, text;
      teleportDestination := Vec3(0.0, 5.0, 0.0);
      currentRider, trollMessage := null, "";
      enabled := true;
      new;
      if button == null || text == null {
        enabled := false;
        return;
      }
      button.SetActive(false);
      text.SetActive(false);
    }

    /**
     * A player entering becomes the rider: the old joke hides and the call
     * button shows. A missing joke text stops the handler right after the
     * rider is recorded, a missing button right before it would show.
     */
    method OnTriggerEnter2D(tag: string, other: Player.PlayerController)
      requires Valid()
      modifies this`currentRider, callButton, trollText
      ensures Valid()
      ensures tag == PlayerTag || tag == PlayerTwoTag ==>
        && currentRider == other
        && (trollText != null ==> !trollText.activeSelf)
        && (trollText == null ==> ButtonKept())
        && (Assigned() ==> callButton.activeSelf)
      ensures !(tag == PlayerTag || tag == PlayerTwoTag) ==>
        currentRider == old(currentRider) && ButtonKept() && TextKept()
    {
      if tag == PlayerTag || tag == PlayerTwoTag {
        currentRider := other;
        if trollText == null {
          return;
        }
        trollText.SetActive(false);
        if callButton == null {
          return;
        }
        callButton.SetActive(true);
      }
    }

    /**
     * Only the rider leaving clears the rider and hides the UI. A missing
     * reference stops the handler before the rider is cleared.
     */
    method OnTriggerExit2D(other: object)
      requires Valid()
      modifies this`currentRider, callButton, trollText
      ensures Valid()
      ensures old(currentRider) != null && other == old(currentRider) ==>
        && (callButton != null ==> !callButton.activeSelf)
        && (Assigned() ==> currentRider == null && !trollText.activeSelf)
        && (!Assigned() ==> currentRider == old(currentRider) && TextKept())
      ensures !(old(currentRider) != null && other == old(currentRider)) ==>
        currentRider == old(currentRider) && ButtonKept() && TextKept()
    {
      if currentRider != null && other == currentRider {
        if callButton == null {
          return;
        }
        callButton.SetActive(false);
        if trollText == null {
          return;
        }
        trollText.SetActive(false);
        currentRider := null;
      }
    }

    /**
     * Moves the rider to the destination, hides the button and forgets the
     * rider; the joke text is never read. A missing button stops the handler
     * after the move, with the rider kept.
     */
    method OnCallButtonClicked()
      requires Valid()
      modifies this`currentRider, callButton, currentRider
      ensures Valid()
      ensures old(currentRider) == null ==> currentRider == null && ButtonKept()
      ensures old(currentRider) != null ==> old(currentRider).position == teleportDestination
      ensures old(currentRider) != null && callButton != null ==> currentRider == null && !callButton.activeSelf
      ensures old(currentRider) != null && callButton == null ==> currentRider == old(currentRider)
      ensures old(currentRider) != null ==> old(currentRider).originalSpawnPos == old(currentRider.originalSpawnPos)
    {
      if currentRider == null {
        return;
      }
      currentRider.position := teleportDestination;
      if callButton == null {
        return;
      }
      callButton.SetActive(false);
      currentRider := null;
    }

    /**
     * As the call button, and the joke is shown. A missing button stops the
     * handler after the move; a missing joke text stops it after the button
     * is hidden, with the rider kept and no joke.
     */
    method OnCallButtonClickedTroll()
      requires Valid()
      modifies this`currentRider, this`trollMessage, callButton, trollText, currentRider
      ensures Valid()
      ensures old(currentRider) == null ==>
        currentRider == null && trollMessage == old(trollMessage) && ButtonKept() && TextKept()
      ensures old(currentRider) != null ==> old(currentRider).position == teleportDestination
      ensures old(currentRider) != null && callButton != null ==> !callButton.activeSelf
      ensures old(currentRider) != null && Assigned() ==>
        currentRider == null && trollMessage == TrollMessage && trollText.activeSelf
      ensures old(currentRider) != null && !Assigned() ==>
        currentRider == old(currentRider) && trollMessage == old(trollMessage) && TextKept()
    {
      if currentRider == null {
        return;
      }
      currentRider.position := teleportDestination;
      if callButton == null {
        return;
      }
      callButton.SetActive(false);
      if trollText == null {
        return;
      }
      trollMessage := TrollMessage;
      trollText.SetActive(true);
      currentRider := null;
    }
  }
}
