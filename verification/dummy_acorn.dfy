/**
 * The decoy acorn a player drops: the opponent who touches it is stunned for
 * `stunDuration` (controller disabled, body stopped), after which the
 * controller is re-enabled and the acorn destroys itself.
 */
module Decoys {
  import opened Common
  import opened Coroutines
  import Player

  /** The continuation of StunAndDestroy after its wait: re-enable that player and destroy the acorn. */
  datatype Release = Release(player: int)

  /** The controllers the given continuations re-enable. */
  function Released(es: seq<Release>): set<BehaviourId>
  {
    set r | r in es :: PlayerCtl(r.player)
  }

  lemma ReleasedStep(es: seq<Release>, k: nat)
    requires k < |es|
    ensures Released(es[..k + 1]) == Released(es[..k]) + {PlayerCtl(es[k].player)}
  {
    assert es[..k + 1] == es[..k] + [es[k]];
  }

  class DummyAcorn {
    const placer: int
    const stunDuration: real
    /** The StunAndDestroy coroutines waiting out their stun. */
    var routines: seq<Wait<Release>>
    /** Destroy(gameObject) has run: the acorn, and with it its coroutines, are gone. */
    var destroyed: bool

    /** Spawned by the gadget controller, tagged with the placing player's index. */
    constructor (placedBy: int)
      ensures placer == placedBy && stunDuration == 3.0 && routines == [] && !destroyed
    {
      placer, stunDuration := placedBy, 3.0;
      routines, destroyed := [], false;
    }

    /**
     * A collider touches the acorn. Colliders without a player controller are
     * ignored; the placer is never stunned; any other player is stunned at
     * once and released after the wait. Nothing stops a second contact from
     * starting a second stun.
     */
    method OnTriggerEnter2D(pc: Player.PlayerController?, world: Behaviours)
      requires !destroyed
      modifies this`routines, world, pc
      ensures pc == null || pc.playerIndex == placer ==>
        routines == old(routines) && world.disabled == old(world.disabled)
      ensures pc != null && pc.playerIndex != placer ==>
        && routines == old(routines) + [Wait(Release(pc.playerIndex), stunDuration)]
        && world.disabled == old(world.disabled) + {PlayerCtl(pc.playerIndex)}
        && pc.velocityX == 0.0 && pc.velocityY == 0.0 && pc.angularVelocity == 0.0
      ensures pc != null ==> pc.position == old(pc.position) && pc.isInvisible == old(pc.isInvisible)
                             && pc.isBoots == old(pc.isBoots) && pc.isShield == old(pc.isShield)
    {
      if pc == null {
        return;
      }
      if pc.playerIndex != placer {
        StartStun(pc, world);
      }
    }

    /** The part of StunAndDestroy before its wait. */
    method StartStun(pc: Player.PlayerController, world: Behaviours)
      modifies this`routines, world, pc
      ensures routines == old(routines) + [Wait(Release(pc.playerIndex), stunDuration)]
      ensures world.disabled == old(world.disabled) + {PlayerCtl(pc.playerIndex)}
      ensures pc.velocityX == 0.0 && pc.velocityY == 0.0 && pc.angularVelocity == 0.0
      ensures pc.position == old(pc.position) && pc.isInvisible == old(pc.isInvisible)
      ensures pc.isBoots == old(pc.isBoots) && pc.isShield == old(pc.isShield)
    {
      world.SetEnabled(PlayerCtl(pc.playerIndex), false);
      pc.velocityX, pc.velocityY := 0.0, 0.0;
      pc.angularVelocity := 0.0;
      routines := routines + [Wait(Release(pc.playerIndex), stunDuration)];
    }

    /**
     * One frame of dt for the pending stuns: each one due re-enables its
     * player and destroys the acorn; a destroyed acorn's other coroutines end
     * with it.
     */
    method ResumeCoroutines(dt: real, world: Behaviours)
      requires !destroyed
      modifies this`routines, this`destroyed, world
      ensures var due := Due(old(routines), dt);
        && world.disabled == old(world.disabled) - Released(due)
        && destroyed == (due != [])
        && routines == (if due != [] then [] else Later(old(routines), dt))
    {
      var due := Due(routines, dt);
      routines := Later(routines, dt);
      var k := 0;
      while k < |due|
        invariant 0 <= k <= |due|
        invariant world.disabled == old(world.disabled) - Released(due[..k])
        invariant destroyed == (k > 0) && routines == Later(old(routines), dt)
      {
        ReleasedStep(due, k);
        world.SetEnabled(PlayerCtl(due[k].player), true);
        destroyed := true;
        k := k + 1;
      }
      assert due[..|due|] == due;
      if destroyed {
        routines := [];
      }
    }
  }

  /**
   * A single stun releases its player exactly when the frames since the
   * contact add up to the stun duration, and never earlier.
   */
  lemma StunReleasedAfterDuration(p: int, d: real, dts: seq<real>)
    requires forall i :: 0 <= i < |dts| ==> dts[i] >= 0.0
    ensures Fired([Wait(Release(p), d)], dts) == if dts != [] && Sum(dts) >= d then [Release(p)] else []
  {
    WaitResumesOnceAfterDuration(Release(p), d, dts);
  }
}
