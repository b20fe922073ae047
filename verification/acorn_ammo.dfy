/**
 * The acorn fired by the launcher. What a contact does depends only on the
 * tag of the collider it enters: an NPC is stunned, a player respawns, air
 * currents, other acorns and climb zones let it pass, and anything else
 * stops it.
 */
module Ammo {
  import opened Common
  import Player

  /** What a contact with a collider of some tag does to the acorn. */
  datatype Outcome = StunNpc | HitPlayer | PassThrough | Stopped

  function OutcomeFor(tag: string): (o: Outcome)
    ensures o == StunNpc <==> tag == NpcTag
    ensures o == HitPlayer <==> tag == PlayerTag || tag == PlayerTwoTag
    ensures o == PassThrough <==> tag == AirTag || tag == AcornTag || tag == ClimbTag
  {
    if tag == NpcTag then StunNpc
    else if tag == PlayerTag || tag == PlayerTwoTag then HitPlayer
    else if tag != AirTag && tag != AcornTag && tag != ClimbTag then Stopped
    else PassThrough
  }

  /** A Stun coroutine started on an NPC patrol or a moving platform, for the given duration. */
  datatype StunRequest = StunRequest(target: BehaviourId, duration: real)

  /** The stuns an NPC hit starts: the patrol's first, then the platform's, for whichever components exist. */
  function NpcStuns(npc: Option<nat>, platform: Option<nat>, duration: real): (r: seq<StunRequest>)
    ensures forall s :: s in r <==>
              (npc.Some? && s == StunRequest(Npc(npc.value), duration))
              || (platform.Some? && s == StunRequest(Platform(platform.value), duration))
    ensures |r| == (if npc.Some? then 1 else 0) + (if platform.Some? then 1 else 0)
    ensures npc.Some? ==> r[0] == StunRequest(Npc(npc.value), duration)
  {
    (if npc.Some? then [StunRequest(Npc(npc.value), duration)] else [])
    + (if platform.Some? then [StunRequest(Platform(platform.value), duration)] else [])
  }

  class AcornAmmo {
    const stunDuration: real
    /** The stuns this acorn has started, in order. */
    var stunRequests: seq<StunRequest>
    /** Destroy(gameObject) has run. */
    var destroyed: bool

    constructor ()
      ensures stunDuration == 3.0 && stunRequests == [] && !destroyed
    {
      stunDuration := 3.0;
      stunRequests, destroyed := [], false;
    }

    /**
     * The acorn enters a collider with the given tag. `npc` and `platform` are
     * the collider's patrol and moving-platform components, `pc` its player
     * controller, and `found` what a respawn reads of the gadget controllers
     * in the scene.
     */
    method OnTriggerEnter2D(tag: string, npc: Option<nat>, platform: Option<nat>,
                            pc: Player.PlayerController?, found: seq<Player.Marker>)
      requires !destroyed
      modifies this`stunRequests, this`destroyed, pc
      ensures destroyed <==> OutcomeFor(tag) != PassThrough
      ensures OutcomeFor(tag) == StunNpc ==> stunRequests == old(stunRequests) + NpcStuns(npc, platform, stunDuration)
      ensures OutcomeFor(tag) != StunNpc ==> stunRequests == old(stunRequests)
      ensures OutcomeFor(tag) == HitPlayer && pc != null ==>
        && pc.position == Player.RespawnTarget(Player.FirstPlaced(found, pc.playerIndex), old(pc.originalSpawnPos), pc.offset)
        && pc.velocityX == 0.0 && pc.velocityY == 0.0
      ensures !(OutcomeFor(tag) == HitPlayer && pc != null) ==> pc == null || unchanged(pc)
    {
      if tag == NpcTag {
        stunRequests := stunRequests + NpcStuns(npc, platform, stunDuration);
        destroyed := true;
        return;
      }
      if tag == PlayerTag || tag == PlayerTwoTag {
        if pc != null {
          pc.Respawn(found);
        }
        destroyed := true;
        return;
      }
      if tag != AirTag && tag != AcornTag && tag != ClimbTag {
        destroyed := true;
      }
    }
  }
}
