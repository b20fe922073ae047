/**
 * The factory's swinging hook. A player touching its tip is hinged to it;
 * only that player's own up key lets go, which also stuns the player's
 * controls briefly and keeps the hook from grabbing again until a short delay
 * has passed.
 *
 * The hinge joint is reduced to whether it exists and which player it holds;
 * the release impulse is not modelled.
 */
module Hooks {
  import opened Common
  import opened Coroutines
  import Player

  /** The continuations of the hook's two coroutines. */
  datatype HookRoutine = Relatch | Reenable(player: int)

  /** The latched player's own key releases: W for player one's tag, the up arrow for player two's. */
  predicate ReleaseRequested(latchedTag: string, input: Input)
  {
    (latchedTag == PlayerTag && W in input.down) || (latchedTag == PlayerTwoTag && UpArrow in input.down)
  }

  /** The controllers a run of continuations re-enables. */
  function Reenabled(es: seq<HookRoutine>): set<BehaviourId>
  {
    set e | e in es && e.Reenable? :: PlayerCtl(e.player)
  }

  lemma ReenabledStep(es: seq<HookRoutine>, k: nat)
    requires k < |es|
    ensures Reenabled(es[..k + 1]) == Reenabled(es[..k]) + (if es[k].Reenable? then {PlayerCtl(es[k].player)} else {})
    ensures Relatch in es[..k + 1] <==> Relatch in es[..k] || es[k] == Relatch
  {
    assert es[..k + 1] == es[..k] + [es[k]];
  }

  class HookController2D {
    const relatchDelay: real
    const duration: real
    var isPlayerLatched: bool
    var canLatch: bool
    var latchedTag: string
    /** The controller on the latched body, if it has one. */
    var latchedPlayer: Player.PlayerController?
    /** playerJoint != null */
    var jointAttached: bool
    var routines: seq<Wait<HookRoutine>>

    /**
     * The joint exists exactly while a player is latched; a latched hook cannot
     * latch; and a hook that cannot latch is either holding a player or
     * waiting out its one relatch delay.
     */
    ghost predicate Valid()
      reads this
    {
      && jointAttached == isPlayerLatched
      && (isPlayerLatched ==> !canLatch)
      && Occurrences(routines, Relatch) == if !canLatch && !isPlayerLatched then 1 else 0
    }

    constructor ()
      ensures relatchDelay == 0.3 && duration == 0.5
      ensures !isPlayerLatched && canLatch && !jointAttached && routines == []
      ensures Valid()
    {
      relatchDelay, duration := 0.3, 0.5;
      isPlayerLatched, canLatch, jointAttached := false, true, false;
      latchedTag, latchedPlayer, routines := "", null, [];
    }

    /** Only a free hook, outside its relatch delay, grabs; and only the two players. */
    method OnTriggerEnter2D(tag: string, pc: Player.PlayerController?)
      requires Valid()
      modifies this`canLatch, this`isPlayerLatched, this`latchedTag, this`latchedPlayer, this`jointAttached
      ensures Valid()
      ensures var latches := old(canLatch) && !old(isPlayerLatched) && (tag == PlayerTag || tag == PlayerTwoTag);
        && (latches ==> isPlayerLatched && !canLatch && latchedTag == tag && latchedPlayer == pc)
        && (!latches ==> isPlayerLatched == old(isPlayerLatched) && canLatch == old(canLatch)
                         && latchedTag == old(latchedTag) && latchedPlayer == old(latchedPlayer))
    {
      if !canLatch || isPlayerLatched {
        return;
      }
      if tag == PlayerTag || tag == PlayerTwoTag {
        LatchPlayer(pc, tag);
      }
    }

    method LatchPlayer(pc: Player.PlayerController?, tag: string)
      modifies this`canLatch, this`isPlayerLatched, this`latchedTag, this`latchedPlayer, this`jointAttached
      ensures !canLatch && isPlayerLatched && latchedTag == tag && latchedPlayer == pc && jointAttached
    {
      canLatch := false;
      isPlayerLatched := true;
      latchedPlayer := pc;
      latchedTag := tag;
      jointAttached := true;
    }

    /** Frees the latched player, starts the relatch delay and stuns the player's controls. */
    method ReleasePlayer(world: Behaviours)
      requires Valid()
      modifies this`isPlayerLatched, this`jointAttached, this`routines, world
      ensures Valid()
      ensures !old(isPlayerLatched) ==> isPlayerLatched == old(isPlayerLatched) && routines == old(routines)
                                        && world.disabled == old(world.disabled)
      ensures old(isPlayerLatched) ==>
        && !isPlayerLatched && !jointAttached
        && routines == old(routines) + [Wait(Relatch, relatchDelay)]
             + (if latchedPlayer != null then [Wait(Reenable(latchedPlayer.playerIndex), duration)] else [])
        && world.disabled == old(world.disabled)
             + (if latchedPlayer != null then {PlayerCtl(latchedPlayer.playerIndex)} else {})
    {
      if !isPlayerLatched {
        return;
      }
      jointAttached := false;
      isPlayerLatched := false;
      OccurrencesAppend(routines, Wait(Relatch, relatchDelay), Relatch);
      routines := routines + [Wait(Relatch, relatchDelay)];
      if latchedPlayer != null {
        world.SetEnabled(PlayerCtl(latchedPlayer.playerIndex), false);
        OccurrencesAppend(routines, Wait(Reenable(latchedPlayer.playerIndex), duration), Relatch);
        routines := routines + [Wait(Reenable(latchedPlayer.playerIndex), duration)];
      }
    }

    /** Update: a latched hook lets go when its player presses that player's own up key. */
    method Update(input: Input, world: Behaviours)
      requires Valid()
      modifies this`isPlayerLatched, this`jointAttached, this`routines, world
      ensures Valid()
      ensures isPlayerLatched == (old(isPlayerLatched) && !ReleaseRequested(latchedTag, input))
      ensures !old(isPlayerLatched) || !ReleaseRequested(latchedTag, input) ==>
        routines == old(routines) && world.disabled == old(world.disabled) && jointAttached == old(jointAttached)
      ensures old(isPlayerLatched) && ReleaseRequested(latchedTag, input) ==>
        && !jointAttached
        && routines == old(routines) + [Wait(Relatch, relatchDelay)]
             + (if latchedPlayer != null then [Wait(Reenable(latchedPlayer.playerIndex), duration)] else [])
        && world.disabled == old(world.disabled)
             + (if latchedPlayer != null then {PlayerCtl(latchedPlayer.playerIndex)} else {})
    {
      if !isPlayerLatched {
        return;
      }
      if (latchedTag == PlayerTag && W in input.down) || (latchedTag == PlayerTwoTag && UpArrow in input.down) {
        ReleasePlayer(world);
      }
    }

    /** Runs one due continuation. */
    method Run(e: HookRoutine, world: Behaviours)
      modifies this`canLatch, world
      ensures canLatch == (old(canLatch) || e == Relatch)
      ensures world.disabled == old(world.disabled) - (if e.Reenable? then {PlayerCtl(e.player)} else {})
    {
      match e {
        case Relatch =>
          canLatch := true;
        case Reenable(p) =>
          world.SetEnabled(PlayerCtl(p), true);
      }
    }

    /**
     * A frame of dt for the coroutines: a due relatch delay lets the hook grab
     * again, and a due stun re-enables its player's controls.
     */
    method ResumeCoroutines(dt: real, world: Behaviours)
      requires Valid()
      modifies this`canLatch, this`routines, world
      ensures Valid()
      ensures routines == Later(old(routines), dt)
      ensures canLatch == (old(canLatch) || Relatch in Due(old(routines), dt))
      ensures world.disabled == old(world.disabled) - Reenabled(Due(old(routines), dt))
    {
      var due := Due(routines, dt);
      OccurrencesRunOrStay(routines, dt, Relatch);
      CountPositive(due, Relatch);
      routines := Later(routines, dt);
      RunAll(due, world);
    }

    /** The continuations that are due, run in the order their coroutines started. */
    method RunAll(due: seq<HookRoutine>, world: Behaviours)
      modifies this`canLatch, world
      ensures canLatch == (old(canLatch) || Relatch in due)
      ensures world.disabled == old(world.disabled) - Reenabled(due)
    {
      var k := 0;
      while k < |due|
        invariant 0 <= k <= |due|
        invariant canLatch == (old(canLatch) || Relatch in due[..k])
        invariant world.disabled == old(world.disabled) - Reenabled(due[..k])
      {
        ReenabledStep(due, k);
        Run(due[k], world);
        k := k + 1;
      }
      assert due[..|due|] == due;
    }
  }

  /** After a release the hook cannot grab until its relatch delay has run out. */
  lemma RelatchOnlyAfterDelay(d: real, dts: seq<real>)
    requires forall i :: 0 <= i < |dts| ==> dts[i] >= 0.0
    ensures Relatch in Fired([Wait(Relatch, d)], dts) <==> dts != [] && Sum(dts) >= d
  {
    WaitResumesOnceAfterDuration(Relatch, d, dts);
  }
}
