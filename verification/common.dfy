/** Values and engine handles shared by every component of the model. */
module Common {

  datatype Option<+T> = None | Some(value: T)

  /** A Unity Vector3, with exact real coordinates. */
  datatype Vec3 = Vec3(x: real, y: real, z: real) {
    function Plus(o: Vec3): Vec3 { Vec3(x + o.x, y + o.y, z + o.z) }
  }

  const Origin: Vec3 := Vec3(0.0, 0.0, 0.0)

  // ---- Item identifiers (the strings the shop, the registry and the gadgets agree on) ----
  const TailSwipeId: string := "TailSwipe"
  const ClimberClawsId: string := "ClimberClaws"
  const CheckpointId: string := "Checkpoint"
  const InvisibilityCloakId: string := "InvisibilityCloak"
  const ShieldId: string := "Shield"
  const BootsId: string := "Boots"
  const WingsuitId: string := "Wingsuit"
  const AcornId: string := "Acorn"
  const LauncherId: string := "Launcher"

  /** The nine catalogue items. */
  const KnownItems: set<string> :=
    {TailSwipeId, ClimberClawsId, CheckpointId, InvisibilityCloakId, ShieldId, BootsId, WingsuitId, AcornId, LauncherId}

  // ---- Tags used by the trigger handlers ----
  const PlayerTag: string := "Player"
  const PlayerTwoTag: string := "PlayerTwo"
  const NpcTag: string := "NPC"
  const BoxTag: string := "Box"
  const ClimbTag: string := "Climb"
  const AirTag: string := "Air"
  const AcornTag: string := "Acorn"

  /** The keys the modelled components read. */
  datatype KeyCode =
    | A | D | W | S | Q | E | R | P | Space
    | Alpha0 | Alpha1 | Alpha2 | Alpha3 | Alpha8 | Alpha9
    | LeftArrow | RightArrow | UpArrow | DownArrow

  /** One frame of keyboard input: `down` is Input.GetKeyDown, `held` is Input.GetKey. */
  datatype Input = Input(down: set<KeyCode>, held: set<KeyCode>)

  const NoInput: Input := Input({}, {})

  /** A scene object reduced to its `activeSelf` flag. */
  class GameObject {
    var activeSelf: bool

    constructor (active: bool)
      ensures activeSelf == active
    {
      activeSelf := active;
    }

    /** GameObject.SetActive */
    method SetActive(on: bool)
      modifies this
      ensures activeSelf == on
    {
      activeSelf := on;
    }
  }

  /** Abstract handle of a Behaviour whose `enabled` flag a stun toggles. */
  datatype BehaviourId = PlayerCtl(index: int) | Npc(id: nat) | Platform(id: nat)

  /**
   * The `enabled` flags of the stunnable behaviours of a scene. A behaviour is
   * enabled unless it is in `disabled`.
   */
  class Behaviours {
    var disabled: set<BehaviourId>

    constructor ()
      ensures disabled == {}
    {
      disabled := {};
    }

    predicate IsEnabled(b: BehaviourId)
      reads this
    {
      b !in disabled
    }

    /** Behaviour.enabled = on */
    method SetEnabled(b: BehaviourId, on: bool)
      modifies this
      ensures IsEnabled(b) == on
      ensures disabled == if on then old(disabled) - {b} else old(disabled) + {b}
    {
      if on {
        disabled := disabled - {b};
      } else {
        disabled := disabled + {b};
      }
    }
  }
}
