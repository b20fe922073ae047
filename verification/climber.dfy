/**
 * Climbing with the climber claws: a player inside a climb zone latches on with
 * the up key while the claws are the selected gadget, climbs with gravity
 * suspended, and drops when the zone is left or the claws are deselected.
 *
 * The per-frame logic is specified by pure steps on a `ClimbState`; the class
 * methods are proved to perform exactly those steps.
 */
module Climbing {
  import opened Common
  import Registry
  import Gadgets
  import Player

  /** What the climber changes: the zone flag, the climb flag, gravity and vertical velocity. */
  datatype ClimbState = ClimbState(inClimbZone: bool, isClimbing: bool, gravityScale: real, velocityY: real)

  /** The selected equipped item is the given id; false without a controller or out of range. */
  predicate SelectedIs(equipped: seq<string>, selected: Option<int>, id: string)
  {
    selected.Some? && 0 <= selected.value < |equipped| && equipped[selected.value] == id
  }

  function UpKey(scheme: Player.ControlScheme): KeyCode
  {
    if scheme == Player.WASD then W else UpArrow
  }

  function DownKey(scheme: Player.ControlScheme): KeyCode
  {
    if scheme == Player.WASD then S else DownArrow
  }

  /** The climb direction: the down key overrides the up key. */
  function ClimbDirection(scheme: Player.ControlScheme, input: Input): (v: real)
    ensures v == -1.0 <==> DownKey(scheme) in input.held
    ensures v == 1.0 <==> UpKey(scheme) in input.held && DownKey(scheme) !in input.held
    ensures v == 0.0 <==> UpKey(scheme) !in input.held && DownKey(scheme) !in input.held
  {
    var v := if UpKey(scheme) in input.held then 1.0 else 0.0;
    if DownKey(scheme) in input.held then -1.0 else v
  }

  /** One Update of the climber. */
  function UpdateStep(s: ClimbState, claws: bool, scheme: Player.ControlScheme, input: Input,
                      climbSpeed: real, normalGravity: real): (r: ClimbState)
    ensures r.inClimbZone == s.inClimbZone
    ensures !claws ==> !r.isClimbing && r.velocityY == s.velocityY
                       && r.gravityScale == (if s.isClimbing then normalGravity else s.gravityScale)
    ensures claws && !s.isClimbing && !(s.inClimbZone && UpKey(scheme) in input.down) ==>
              r == s.(gravityScale := normalGravity)
    ensures claws && r.isClimbing ==>
              r.gravityScale == 0.0 && r.velocityY == ClimbDirection(scheme, input) * climbSpeed
    ensures r.isClimbing ==> claws && s.inClimbZone && (s.isClimbing || UpKey(scheme) in input.down)
  {
    if !claws then
      (if s.isClimbing then s.(isClimbing := false, gravityScale := normalGravity) else s)
    else
      var latched := if s.inClimbZone && !s.isClimbing && UpKey(scheme) in input.down
                     then s.(isClimbing := true, velocityY := 0.0) else s;
      if latched.isClimbing then
        var climbing := latched.(gravityScale := 0.0, velocityY := ClimbDirection(scheme, input) * climbSpeed);
        if !climbing.inClimbZone then climbing.(isClimbing := false, gravityScale := normalGravity) else climbing
      else latched.(gravityScale := normalGravity)
  }

  /** Entering a trigger: a climb zone registers only while the claws are selected. */
  function EnterStep(s: ClimbState, tag: string, claws: bool): (r: ClimbState)
    ensures r.inClimbZone <==> s.inClimbZone || (tag == ClimbTag && claws)
    ensures r == s.(inClimbZone := r.inClimbZone)
  {
    if tag == ClimbTag && claws then s.(inClimbZone := true) else s
  }

  /** Leaving a climb zone ends the climb; gravity is left to the next Update. */
  function ExitStep(s: ClimbState, tag: string): (r: ClimbState)
    ensures tag == ClimbTag ==> !r.inClimbZone && !r.isClimbing
    ensures tag != ClimbTag ==> r == s
    ensures r.gravityScale == s.gravityScale && r.velocityY == s.velocityY
  {
    if tag == ClimbTag then s.(inClimbZone := false, isClimbing := false) else s
  }

  /** A climb happens only inside a zone; every step keeps this. */
  predicate ClimbInZone(s: ClimbState)
  {
    s.isClimbing ==> s.inClimbZone
  }

  lemma StepsKeepClimbInZone(s: ClimbState, claws: bool, scheme: Player.ControlScheme, input: Input,
                             climbSpeed: real, normalGravity: real, tag: string)
    requires ClimbInZone(s)
    ensures ClimbInZone(UpdateStep(s, claws, scheme, input, climbSpeed, normalGravity))
    ensures ClimbInZone(EnterStep(s, tag, claws))
    ensures ClimbInZone(ExitStep(s, tag))
  {
  }

  /** Leaving the zone mid-climb, then an Update with the claws still selected, restores gravity. */
  lemma ExitThenUpdateRestoresGravity(s: ClimbState, scheme: Player.ControlScheme, input: Input,
                                      climbSpeed: real, normalGravity: real)
    ensures UpdateStep(ExitStep(s, ClimbTag), true, scheme, input, climbSpeed, normalGravity).gravityScale == normalGravity
    ensures !UpdateStep(ExitStep(s, ClimbTag), true, scheme, input, climbSpeed, normalGravity).isClimbing
  {
  }

  /**
   * As written, the drop on deselection restores gravity only when a climb is
   * still on: leaving the zone mid-climb and deselecting the claws before the
   * next Update leaves gravity suspended.
   */
  lemma ExitThenDeselectKeepsGravitySuspended(s: ClimbState, scheme: Player.ControlScheme, input: Input,
                                              climbSpeed: real, normalGravity: real)
    requires s.isClimbing && s.gravityScale == 0.0
    ensures UpdateStep(ExitStep(s, ClimbTag), false, scheme, input, climbSpeed, normalGravity).gravityScale == 0.0
  {
  }

  class Climber {
    const playerIndex: int
    const controlScheme: Player.ControlScheme
    const climbSpeed: real
    /** The body's gravity scale when Awake ran. */
    const normalGravityScale: real
    /** The controller found by Awake for this player, if any. */
    const gadgetController: Gadgets.GadgetController2D?

    var inClimbZone: bool
    var isClimbing: bool
    var gravityScale: real
    var velocityY: real

    /** Awake: remembers the body's gravity and the first gadget controller with this player's index. */
    constructor (index: int, scheme: Player.ControlScheme, gravity: real, controllers: seq<Gadgets.GadgetController2D>)
      ensures playerIndex == index && controlScheme == scheme && climbSpeed == 3.0
      ensures normalGravityScale == gravity && gravityScale == gravity && velocityY == 0.0
      ensures !inClimbZone && !isClimbing
      ensures gadgetController == Gadgets.FirstForPlayer(controllers, index)
    {
      playerIndex, controlScheme, climbSpeed := index, scheme, 3.0;
      normalGravityScale, gravityScale, velocityY := gravity, gravity, 0.0;
      inClimbZone, isClimbing := false, false;
      var found: Gadgets.GadgetController2D? := null;
      var i := 0;
      while i < |controllers| && found == null
        invariant 0 <= i <= |controllers|
        invariant found == null ==> Gadgets.FirstForPlayer(controllers[i..], index) == Gadgets.FirstForPlayer(controllers, index)
        invariant found != null ==> found == Gadgets.FirstForPlayer(controllers, index)
      {
        assert controllers[i..][1..] == controllers[i + 1..];
        if controllers[i].cfg.playerIndex == index {
          found := controllers[i];
        }
        i := i + 1;
      }
      gadgetController := found;
    }

    function State(): ClimbState
      reads this
    {
      ClimbState(inClimbZone, isClimbing, gravityScale, velocityY)
    }

    /** The controller's selected index, if there is a controller. */
    function Selection(): Option<int>
      reads this, gadgetController
    {
      if gadgetController == null then None else Some(gadgetController.selectedIndex)
    }

    /** True only when the selected equipped item of this player is the climber claws. */
    function HasClawsSelected(gm: Registry.GameManager): (r: bool)
      reads this, gadgetController, gm
      ensures r <==> SelectedIs(gm.GetEquippedList(playerIndex), Selection(), ClimberClawsId)
    {
      if gadgetController == null then false
      else
        var sel := gadgetController.selectedIndex;
        if sel < 0 then false
        else
          var equipped := gm.GetEquippedList(playerIndex);
          if sel >= |equipped| then false
          else equipped[sel] == ClimberClawsId
    }

    method Update(input: Input, gm: Registry.GameManager)
      modifies this`inClimbZone, this`isClimbing, this`gravityScale, this`velocityY
      ensures State() == UpdateStep(old(State()), HasClawsSelected(gm), controlScheme, input, climbSpeed, normalGravityScale)
    {
      if !HasClawsSelected(gm) {
        if isClimbing {
          isClimbing := false;
          gravityScale := normalGravityScale;
        }
        return;
      }
      var upKey, downKey := UpKey(controlScheme), DownKey(controlScheme);
      if inClimbZone && !isClimbing && upKey in input.down {
        isClimbing := true;
        velocityY := 0.0;
      }
      if isClimbing {
        gravityScale := 0.0;
        var v := 0.0;
        if upKey in input.held {
          v := 1.0;
        }
        if downKey in input.held {
          v := -1.0;
        }
        velocityY := v * climbSpeed;
        if !inClimbZone {
          isClimbing := false;
          gravityScale := normalGravityScale;
        }
      } else {
        gravityScale := normalGravityScale;
      }
    }

    method OnTriggerEnter2D(tag: string, gm: Registry.GameManager)
      modifies this`inClimbZone
      ensures State() == EnterStep(old(State()), tag, HasClawsSelected(gm))
    {
      if tag == ClimbTag && HasClawsSelected(gm) {
        inClimbZone := true;
      }
    }

    method OnTriggerExit2D(tag: string)
      modifies this`inClimbZone, this`isClimbing
      ensures State() == ExitStep(old(State()), tag)
    {
      if tag == ClimbTag {
        inClimbZone := false;
        isClimbing := false;
      }
    }
  }
}
