/**
 * GadgetController2D: one player's gadget controller as a class whose fields
 * are the source's, and whose methods are proved to change them exactly as
 * the functions of module GadgetSpec describe (`Snap` reads the fields into a
 * `Snapshot`). Properties of the gadgets are lemmas in GadgetSpec.
 *
 * The engine calls the controller each frame: first `Update` runs, then the
 * suspended coroutines resume (`ResumeCoroutines`). Which of these a caller
 * runs, and in what order, is left to the caller.
 */
module Gadgets {
  import opened Common
  import opened Coroutines
  import opened GadgetSpec
  import Registry
  import Player

  class GadgetController2D {
    const cfg: Config
    /** The player's controller; the source does not require it to be set. */
    const playerController: Player.PlayerController?

    /** The seven `canUse*` flags and `*Timer` fields. */
    var cooldowns: Cooldowns
    var selectedIndex: int
    var lastEquipCount: int
    /** Where the single teleporter marker stands, once one has been placed. */
    var teleporterInstance: Option<Vec3>
    /** Whether the shield child object is active. */
    var shieldActive: bool
    /** The controller's suspended coroutines. */
    var routines: seq<Wait<Routine>>
    /** The prefabs the controller has instantiated, in order. */
    var spawned: seq<Spawn>
    /** How many times the controller has refreshed this player's HUD. */
    var hudRefreshes: nat

    /** Awake, with the shield found and hidden. */
    constructor (config: Config, pc: Player.PlayerController?)
      ensures cfg == config && playerController == pc
      ensures cooldowns == AllReady && selectedIndex == 0 && lastEquipCount == 0
      ensures teleporterInstance.None? && !shieldActive
      ensures routines == [] && spawned == [] && hudRefreshes == 0
      ensures Valid()
    {
      cfg, playerController := config, pc;
      cooldowns := AllReady;
      selectedIndex, lastEquipCount := 0, 0;
      teleporterInstance, shieldActive := None, false;
      routines, spawned, hudRefreshes := [], [], 0;
    }

    /** The selection lies in [0, max(0, lastEquipCount - 1)]. */
    ghost predicate Valid()
      reads this
    {
      0 <= lastEquipCount && 0 <= selectedIndex <= Max(0, lastEquipCount - 1)
    }

    function PlayerStatus(): Option<Status>
      reads playerController
    {
      if playerController == null then None
      else Some(Status(playerController.playerIndex, playerController.isGrounded,
                       playerController.isBoots, playerController.isInvisible, playerController.isShield))
    }

    /** Everything the controller reads and writes, with the scene's behaviour flags. */
    function Snap(world: Behaviours): Snapshot
      reads this, playerController, world
    {
      Snapshot(cooldowns, selectedIndex, lastEquipCount, teleporterInstance, shieldActive,
               routines, spawned, hudRefreshes, PlayerStatus(), world.disabled)
    }

    /** The player's position, motion and spawn point are not the gadgets' business. */
    twostate predicate PlayerBodyUnchanged()
      reads playerController
    {
      playerController != null ==>
        && playerController.position == old(playerController.position)
        && playerController.originalSpawnPos == old(playerController.originalSpawnPos)
        && playerController.scaleX == old(playerController.scaleX)
        && playerController.velocityX == old(playerController.velocityX)
        && playerController.velocityY == old(playerController.velocityY)
        && playerController.angularVelocity == old(playerController.angularVelocity)
        && playerController.horizontalInput == old(playerController.horizontalInput)
        && playerController.jumpImpulses == old(playerController.jumpImpulses)
    }

    method RefreshHUD()
      modifies this`hudRefreshes
      ensures hudRefreshes == old(hudRefreshes) + 1
    {
      hudRefreshes := hudRefreshes + 1;
    }

    /** One gadget's line of the cooldown block. */
    method TickCooldown(g: Gadget, dt: real, world: Behaviours)
      modifies this`cooldowns, this`hudRefreshes
      ensures Snap(world) == TickGadget(old(Snap(world)), g, dt)
    {
      if !cooldowns.Get(g).canUse {
        var timer := cooldowns.Get(g).timer - dt;
        cooldowns := cooldowns.Set(g, Cooldown(false, timer));
        if timer <= 0.0 {
          cooldowns := cooldowns.Set(g, Cooldown(true, timer));
          RefreshHUD();
        }
      }
    }

    /** ChangeSelection: a no-op, without a HUD refresh, when the index is already selected. */
    method ChangeSelection(newIndex: int, world: Behaviours)
      modifies this`selectedIndex, this`hudRefreshes
      ensures Snap(world) == GadgetSpec.ChangeSelection(old(Snap(world)), newIndex)
      ensures newIndex == old(selectedIndex) ==> hudRefreshes == old(hudRefreshes)
    {
      if newIndex == selectedIndex {
        return;
      }
      selectedIndex := newIndex;
      RefreshHUD();
    }

    method SyncSelection(count: nat, world: Behaviours)
      modifies this`lastEquipCount, this`selectedIndex, this`hudRefreshes
      ensures Snap(world) == SyncEquipCount(old(Snap(world)), count)
    {
      if count != lastEquipCount {
        lastEquipCount := count;
        selectedIndex := Clamp(selectedIndex, 0, Max(0, count - 1));
        RefreshHUD();
      }
    }

    method HandleSelectionKeys(count: nat, input: Input, world: Behaviours)
      modifies this`selectedIndex, this`hudRefreshes
      ensures Snap(world) == SelectionKeys(old(Snap(world)), count, cfg.playerIndex, input)
    {
      HandleSlotKeys(count, input, world);
      HandleCycleKeys(count, input, world);
    }

    /** Alpha1..3 for player 0, Alpha8, Alpha9, Alpha0 for the other player. */
    method HandleSlotKeys(count: nat, input: Input, world: Behaviours)
      modifies this`selectedIndex, this`hudRefreshes
      ensures Snap(world) == SlotKeys(old(Snap(world)), count, cfg.playerIndex, input)
    {
      if SlotKey(cfg.playerIndex, 0) in input.down && count >= 1 { ChangeSelection(0, world); }
      if SlotKey(cfg.playerIndex, 1) in input.down && count >= 2 { ChangeSelection(1, world); }
      if SlotKey(cfg.playerIndex, 2) in input.down && count >= 3 { ChangeSelection(2, world); }
    }

    /** Q and E, for either player. */
    method HandleCycleKeys(count: nat, input: Input, world: Behaviours)
      modifies this`selectedIndex, this`hudRefreshes
      ensures Snap(world) == CycleKeys(old(Snap(world)), count, input)
    {
      if Q in input.down && count > 0 {
        ChangeSelection(CsRem(selectedIndex + count - 1, count), world);
      }
      if E in input.down && count > 0 {
        ChangeSelection(CsRem(selectedIndex + 1, count), world);
      }
    }

    /** The cooldown block at the top of Update, in the source's order. */
    method TickCooldowns(dt: real, world: Behaviours)
      modifies this`cooldowns, this`hudRefreshes
      ensures Snap(world) == GadgetSpec.TickCooldowns(old(Snap(world)), dt)
    {
      TickCooldown(Teleporter, dt, world);
      TickCooldown(Acorn, dt, world);
      TickCooldown(Swipe, dt, world);
      TickCooldown(Invisibility, dt, world);
      TickCooldown(Shield, dt, world);
      TickCooldown(Boots, dt, world);
      TickCooldown(Launcher, dt, world);
    }

    /**
     * Update: the cooldown ticks, the re-clamp on an equipped-count change,
     * the selection keys, then the use key dispatching on the selected id.
     */
    method Update(dt: real, gm: Registry.GameManager, input: Input, env: Env, world: Behaviours)
      requires Valid()
      modifies this, world, playerController
      ensures Valid()
      ensures Snap(world) == GadgetSpec.Update(old(Snap(world)), cfg, dt, gm.GetEquippedList(cfg.playerIndex), input, env)
      ensures PlayerBodyUnchanged()
    {
      TickCooldowns(dt, world);
      var equipped := gm.GetEquippedItems(cfg.playerIndex);
      SyncSelection(|equipped|, world);
      HandleSelectionKeys(|equipped|, input, world);
      UseSelected(equipped, gm, input, env, world);
    }

    /** The use key runs the selected item's gadget; items with no gadget do nothing. */
    method UseSelected(equipped: seq<string>, gm: Registry.GameManager, input: Input, env: Env, world: Behaviours)
      requires equipped == gm.GetEquippedList(cfg.playerIndex)
      requires |equipped| > 0 ==> 0 <= selectedIndex < |equipped|
      modifies this`teleporterInstance, this`spawned, this`routines, this`cooldowns, this`shieldActive, this`hudRefreshes
      modifies world, playerController
      ensures Snap(world) == Dispatch(old(Snap(world)), cfg, equipped, input, env)
      ensures PlayerBodyUnchanged()
    {
      var useKey := if cfg.playerIndex == 0 then R else P;
      if useKey in input.down && |equipped| > 0 {
        var id := equipped[selectedIndex];
        if id == CheckpointId {
          TryUseTeleporter(gm, env, world);
        } else if id == AcornId {
          TryUseAcorn(gm, env, world);
        } else if id == LauncherId {
          TryUseLauncher(gm, env, world);
        } else if id == TailSwipeId {
          TryUseSwipe(gm, env, world);
        } else if id == InvisibilityCloakId {
          TryUseInvisibility(gm, env, world);
        } else if id == ShieldId {
          TryUseShield(gm, env, world);
        } else if id == BootsId {
          TryUseBoots(gm, env, world);
        }
      }
    }

    /**
     * The teleporter's guard ends with `playerController == null &&
     * !playerController.IsGrounded`, which throws for a missing controller and
     * is false otherwise. The first placement instantiates the marker, later
     * ones move it.
     */
    method TryUseTeleporter(gm: Registry.GameManager, env: Env, world: Behaviours)
      modifies this`teleporterInstance, this`cooldowns, this`hudRefreshes
      ensures Snap(world) == TryUse(old(Snap(world)), cfg, Teleporter, gm.GetEquippedList(cfg.playerIndex), env)
      ensures old(gm.IsEquipped(CheckpointId, cfg.playerIndex) && cooldowns.teleport.canUse) && playerController != null ==>
        IsTeleporterPlaced() && TeleporterPosition() == env.playerPos.Plus(cfg.placementOffset)
    {
      if !gm.IsEquipped(CheckpointId, cfg.playerIndex) || !cooldowns.teleport.canUse || playerController == null {
        return;
      }
      var pos := env.playerPos.Plus(cfg.placementOffset);
      teleporterInstance := Some(pos);
      cooldowns := cooldowns.Set(Teleporter, Cooldown(false, cfg.teleportCooldown));
      RefreshHUD();
    }

    method TryUseAcorn(gm: Registry.GameManager, env: Env, world: Behaviours)
      modifies this`spawned, this`cooldowns, this`hudRefreshes
      ensures Snap(world) == TryUse(old(Snap(world)), cfg, Acorn, gm.GetEquippedList(cfg.playerIndex), env)
    {
      if !gm.IsEquipped(AcornId, cfg.playerIndex) || !cooldowns.acorn.canUse || playerController == null {
        return;
      }
      var pos := env.playerPos.Plus(cfg.placementOffsetAcorn);
      spawned := spawned + [Decoy(pos, playerController.playerIndex)];
      cooldowns := cooldowns.Set(Acorn, Cooldown(false, cfg.acornCooldown));
      RefreshHUD();
    }

    /** Mathf.Sign gives 1 for a zero scale. The animator trigger is not modelled. */
    method TryUseLauncher(gm: Registry.GameManager, env: Env, world: Behaviours)
      modifies this`spawned, this`cooldowns, this`hudRefreshes
      ensures Snap(world) == TryUse(old(Snap(world)), cfg, Launcher, gm.GetEquippedList(cfg.playerIndex), env)
    {
      if !gm.IsEquipped(LauncherId, cfg.playerIndex) || !cooldowns.launcher.canUse || env.launcherPos.None? {
        return;
      }
      var spawnPos := env.launcherPos.value.Plus(cfg.placementOffsetAmmo);
      var facingSign := if env.scaleX >= 0.0 then 1.0 else -1.0;
      var zRot := if facingSign > 0.0 then 90.0 else -90.0;
      var velocity := None;
      if env.ammoHasBody {
        velocity := Some(facingSign * cfg.launchSpeed);
      }
      spawned := spawned + [Ammo(spawnPos, zRot, velocity)];
      cooldowns := cooldowns.Set(Launcher, Cooldown(false, cfg.launcherCooldown));
      RefreshHUD();
    }

    /** The first part of StunComponent: disable now, re-enable after the wait. */
    method StunComponent(b: BehaviourId, duration: real, world: Behaviours)
      modifies world, this`routines
      ensures world.disabled == old(world.disabled) + {b}
      ensures routines == old(routines) + [Wait(Reenable(b), duration)]
    {
      world.SetEnabled(b, false);
      routines := routines + [Wait(Reenable(b), duration)];
    }

    /** One overlap hit: its object is skipped if tagged selfTag, else each stunnable component is stunned. */
    method StunHit(hit: Hit, world: Behaviours)
      modifies world, this`routines
      ensures world.disabled == old(world.disabled) + Elements(HitStun(hit, cfg.selfTag))
      ensures routines == old(routines) + StunWaits(HitStun(hit, cfg.selfTag), cfg.stunDuration)
    {
      if hit.tag == cfg.selfTag {
        return;
      }
      ghost var disabled0, routines0 := world.disabled, routines;
      ghost var done: seq<BehaviourId> := [];
      if hit.player.Some? {
        var b := PlayerCtl(hit.player.value);
        StunWaitsSnoc(done, b, cfg.stunDuration);
        StunComponent(b, cfg.stunDuration, world);
        done := done + [b];
      }
      assert world.disabled == disabled0 + Elements(done) && routines == routines0 + StunWaits(done, cfg.stunDuration);
      if hit.npc.Some? {
        var b := Npc(hit.npc.value);
        StunWaitsSnoc(done, b, cfg.stunDuration);
        StunComponent(b, cfg.stunDuration, world);
        done := done + [b];
      }
      assert world.disabled == disabled0 + Elements(done) && routines == routines0 + StunWaits(done, cfg.stunDuration);
      if hit.platform.Some? {
        var b := Platform(hit.platform.value);
        StunWaitsSnoc(done, b, cfg.stunDuration);
        StunComponent(b, cfg.stunDuration, world);
        done := done + [b];
      }
      assert done == HitTargets(hit);
    }

    /** The swipe stuns every stunnable behaviour of each hit object not tagged selfTag. */
    method TryUseSwipe(gm: Registry.GameManager, env: Env, world: Behaviours)
      modifies world, this`routines, this`cooldowns, this`hudRefreshes
      ensures Snap(world) == TryUse(old(Snap(world)), cfg, Swipe, gm.GetEquippedList(cfg.playerIndex), env)
    {
      if !gm.IsEquipped(TailSwipeId, cfg.playerIndex) || !cooldowns.swipe.canUse {
        return;
      }
      StunAll(env.hits, world);
      cooldowns := cooldowns.Set(Swipe, Cooldown(false, cfg.swipeCooldown));
      RefreshHUD();
    }

    /** The state the loop over the hits has reached once the first i hits are stunned. */
    ghost predicate StunnedUpTo(hits: seq<Hit>, i: nat, world: Behaviours, disabled0: set<BehaviourId>, routines0: seq<Wait<Routine>>)
      requires i <= |hits|
      reads this, world
    {
      && world.disabled == disabled0 + Elements(StunTargets(hits[..i], cfg.selfTag))
      && routines == routines0 + StunWaits(StunTargets(hits[..i], cfg.selfTag), cfg.stunDuration)
    }

    /** One turn of the loop over the hits. */
    method StunNext(hits: seq<Hit>, i: nat, world: Behaviours, ghost disabled0: set<BehaviourId>, ghost routines0: seq<Wait<Routine>>)
      requires i < |hits| && StunnedUpTo(hits, i, world, disabled0, routines0)
      modifies world, this`routines
      ensures StunnedUpTo(hits, i + 1, world, disabled0, routines0)
    {
      ghost var done, added := StunTargets(hits[..i], cfg.selfTag), HitStun(hits[i], cfg.selfTag);
      StunAllStep(hits, i, cfg.selfTag, cfg.stunDuration);
      StunHit(hits[i], world);
      assert world.disabled == disabled0 + (Elements(done) + Elements(added));
      assert routines == routines0 + (StunWaits(done, cfg.stunDuration) + StunWaits(added, cfg.stunDuration));
    }

    /** The loop over the overlap hits. */
    method StunAll(hits: seq<Hit>, world: Behaviours)
      modifies world, this`routines
      ensures world.disabled == old(world.disabled) + Elements(StunTargets(hits, cfg.selfTag))
      ensures routines == old(routines) + StunWaits(StunTargets(hits, cfg.selfTag), cfg.stunDuration)
    {
      ghost var disabled0, routines0 := world.disabled, routines;
      var i := 0;
      while i < |hits|
        invariant 0 <= i <= |hits|
        invariant StunnedUpTo(hits, i, world, disabled0, routines0)
      {
        StunNext(hits, i, world, disabled0, routines0);
        i := i + 1;
      }
      assert hits[..|hits|] == hits;
    }

    /** The first part of InvisibilityRoutine; without a controller it throws after clearing the flag. */
    method BeginInvisibility()
      modifies this`cooldowns, this`routines, playerController
      ensures cooldowns == old(cooldowns).Set(Invisibility, old(cooldowns).invisibility.(canUse := false))
      ensures playerController != null ==>
        && PlayerStatus() == Some(old(PlayerStatus()).value.(isInvisible := true))
        && routines == old(routines) + [Wait(EndInvisibility, cfg.invisibilityDuration)]
      ensures playerController == null ==> routines == old(routines)
      ensures PlayerBodyUnchanged()
    {
      cooldowns := cooldowns.Set(Invisibility, cooldowns.invisibility.(canUse := false));
      if playerController == null {
        return;
      }
      playerController.isInvisible := true;
      routines := routines + [Wait(EndInvisibility, cfg.invisibilityDuration)];
    }

    /** The first part of ShieldRoutine, whose wait is invisibilityDuration long. */
    method BeginShield()
      modifies this`cooldowns, this`routines, this`shieldActive, playerController
      ensures cooldowns == old(cooldowns).Set(Shield, old(cooldowns).shield.(canUse := false))
      ensures playerController != null ==>
        && PlayerStatus() == Some(old(PlayerStatus()).value.(isShield := true))
        && shieldActive
        && routines == old(routines) + [Wait(EndShield, cfg.invisibilityDuration)]
      ensures playerController == null ==> routines == old(routines) && shieldActive == old(shieldActive)
      ensures PlayerBodyUnchanged()
    {
      cooldowns := cooldowns.Set(Shield, cooldowns.shield.(canUse := false));
      if playerController == null {
        return;
      }
      playerController.isShield := true;
      shieldActive := true;
      routines := routines + [Wait(EndShield, cfg.invisibilityDuration)];
    }

    method TryUseInvisibility(gm: Registry.GameManager, env: Env, world: Behaviours)
      modifies this`cooldowns, this`routines, this`hudRefreshes, playerController
      ensures Snap(world) == TryUse(old(Snap(world)), cfg, Invisibility, gm.GetEquippedList(cfg.playerIndex), env)
      ensures PlayerBodyUnchanged()
    {
      if !gm.IsEquipped(InvisibilityCloakId, cfg.playerIndex) || !cooldowns.invisibility.canUse {
        return;
      }
      BeginInvisibility();
      RefreshHUD();
    }

    method TryUseShield(gm: Registry.GameManager, env: Env, world: Behaviours)
      modifies this`cooldowns, this`routines, this`shieldActive, this`hudRefreshes, playerController
      ensures Snap(world) == TryUse(old(Snap(world)), cfg, Shield, gm.GetEquippedList(cfg.playerIndex), env)
      ensures PlayerBodyUnchanged()
    {
      if !gm.IsEquipped(ShieldId, cfg.playerIndex) || !cooldowns.shield.canUse {
        return;
      }
      BeginShield();
      RefreshHUD();
    }

    /** Without a controller, `playerController.isBoots = true` throws after the flag is cleared. */
    method TryUseBoots(gm: Registry.GameManager, env: Env, world: Behaviours)
      modifies this`cooldowns, this`hudRefreshes, playerController
      ensures Snap(world) == TryUse(old(Snap(world)), cfg, Boots, gm.GetEquippedList(cfg.playerIndex), env)
      ensures PlayerBodyUnchanged()
    {
      if !gm.IsEquipped(BootsId, cfg.playerIndex) || !cooldowns.boots.canUse {
        return;
      }
      cooldowns := cooldowns.Set(Boots, cooldowns.boots.(canUse := false));
      if playerController == null {
        return;
      }
      playerController.isBoots := true;
      cooldowns := cooldowns.Set(Boots, Cooldown(false, cfg.bootsCooldown));
      RefreshHUD();
    }

    /** The rest of one coroutine, after its wait. */
    method RunContinuation(e: Routine, world: Behaviours)
      modifies this`cooldowns, this`shieldActive, world, playerController
      ensures Snap(world) == Continue(old(Snap(world)), cfg, e)
      ensures PlayerBodyUnchanged()
    {
      match e {
        case EndInvisibility =>
          if playerController != null {
            playerController.isInvisible := false;
          }
          cooldowns := cooldowns.Set(Invisibility, cooldowns.invisibility.(timer := cfg.invisibilityCooldown));
        case EndShield =>
          if playerController != null {
            playerController.isShield := false;
          }
          shieldActive := false;
          cooldowns := cooldowns.Set(Shield, cooldowns.shield.(timer := cfg.shieldCooldown));
        case Reenable(b) =>
          world.SetEnabled(b, true);
      }
    }

    /** The frame's resumption of the suspended coroutines, in the order they started. */
    method ResumeCoroutines(dt: real, world: Behaviours)
      modifies this`routines, this`cooldowns, this`shieldActive, world, playerController
      ensures Snap(world) == Resume(old(Snap(world)), cfg, dt)
      ensures PlayerBodyUnchanged()
    {
      var due := Due(routines, dt);
      routines := Later(routines, dt);
      ghost var start := Snap(world);
      var k := 0;
      while k < |due|
        invariant 0 <= k <= |due|
        invariant Snap(world) == ResumeEvents(start, cfg, due[..k])
        invariant PlayerBodyUnchanged()
      {
        assert due[..k + 1][..k] == due[..k];
        RunContinuation(due[k], world);
        k := k + 1;
      }
      assert due[..|due|] == due;
    }

    /** IsOnCooldown: the negated flag for the seven gadget ids, false for any other id. */
    function IsOnCooldown(itemID: string): (r: bool)
      reads this
      ensures forall g :: itemID == IdOf(g) ==> (r <==> !cooldowns.Get(g).canUse)
      ensures GadgetFor(itemID).None? ==> !r
    {
      if itemID == CheckpointId then !cooldowns.teleport.canUse
      else if itemID == AcornId then !cooldowns.acorn.canUse
      else if itemID == LauncherId then !cooldowns.launcher.canUse
      else if itemID == TailSwipeId then !cooldowns.swipe.canUse
      else if itemID == InvisibilityCloakId then !cooldowns.invisibility.canUse
      else if itemID == ShieldId then !cooldowns.shield.canUse
      else if itemID == BootsId then !cooldowns.boots.canUse
      else false
    }

    /** A marker exists; only `TryUseTeleporter` creates one, and it is never removed. */
    function IsTeleporterPlaced(): (r: bool)
      reads this
      ensures r <==> teleporterInstance.Some?
    {
      teleporterInstance.Some?
    }

    function TeleporterPosition(): (p: Vec3)
      reads this
      ensures !IsTeleporterPlaced() ==> p == Origin
    {
      if teleporterInstance.Some? then teleporterInstance.value else Origin
    }
  }

  /** What a respawn reads of each controller found in the scene, in the same order. */
  function Markers(controllers: seq<GadgetController2D>): (r: seq<Player.Marker>)
    reads controllers
    ensures |r| == |controllers|
    ensures forall k :: 0 <= k < |r| ==> r[k].playerIndex == controllers[k].cfg.playerIndex
    ensures forall k :: 0 <= k < |r| ==> (r[k].teleporter.Some? <==> controllers[k].IsTeleporterPlaced())
    ensures forall k :: 0 <= k < |r| && r[k].teleporter.Some? ==> r[k].teleporter.value == controllers[k].TeleporterPosition()
  {
    if controllers == [] then []
    else
      var c := controllers[0];
      [Player.Marker(c.cfg.playerIndex, if c.IsTeleporterPlaced() then Some(c.TeleporterPosition()) else None)]
      + Markers(controllers[1..])
  }

  /**
   * A respawn of a player goes to the marker of the first controller found
   * for that player that has one placed, and to none of the others'.
   */
  lemma RespawnFindsOwnMarker(controllers: seq<GadgetController2D>, k: nat)
    requires k < |controllers| && controllers[k].IsTeleporterPlaced()
    requires forall j :: 0 <= j < k ==>
      controllers[j].cfg.playerIndex != controllers[k].cfg.playerIndex || !controllers[j].IsTeleporterPlaced()
    ensures Player.FirstPlaced(Markers(controllers), controllers[k].cfg.playerIndex) == Some(controllers[k].TeleporterPosition())
  {
    var found := Markers(controllers);
    assert Player.Placed(found[k], controllers[k].cfg.playerIndex);
    assert Player.FirstOf(found, k, controllers[k].cfg.playerIndex);
  }

  /**
   * After a placement that fires, the controller's marker is where a respawn
   * of its player lands, offset: the latest placement, not the spawn point,
   * as long as no earlier-found controller of the player has a marker too.
   */
  lemma RespawnAtLatestMarker(s: Snapshot, cfg: Config, equipped: seq<string>, env: Env,
                              found: seq<Player.Marker>, k: nat, spawn: Vec3, offset: Vec3)
    requires CheckpointId in equipped && s.cooldowns.teleport.canUse && s.status.Some?
    requires k < |found| && found[k] == Player.Marker(cfg.playerIndex, TryUse(s, cfg, Teleporter, equipped, env).teleporter)
    requires Player.FirstOf(found, k, cfg.playerIndex)
    ensures Player.RespawnTarget(Player.FirstPlaced(found, cfg.playerIndex), spawn, offset)
            == env.playerPos.Plus(cfg.placementOffset).Plus(offset)
  {
    assert TryUse(s, cfg, Teleporter, equipped, env).teleporter == Some(env.playerPos.Plus(cfg.placementOffset));
    assert Player.Placed(found[k], cfg.playerIndex);
  }

  /** The first of the controllers found in the scene whose player index matches, or null. */
  function FirstForPlayer(controllers: seq<GadgetController2D>, index: int): (r: GadgetController2D?)
    ensures r == null <==> forall k :: 0 <= k < |controllers| ==> controllers[k].cfg.playerIndex != index
    ensures r != null ==> exists k :: 0 <= k < |controllers| && controllers[k] == r && r.cfg.playerIndex == index
                                      && forall j :: 0 <= j < k ==> controllers[j].cfg.playerIndex != index
  {
    if controllers == [] then null
    else if controllers[0].cfg.playerIndex == index then controllers[0]
    else
      var rest := FirstForPlayer(controllers[1..], index);
      assert forall k :: 1 <= k < |controllers| ==> controllers[k] == controllers[1..][k - 1];
      if rest != null then
        var k :| 0 <= k < |controllers[1..]| && controllers[1..][k] == rest && rest.cfg.playerIndex == index
                 && forall j :: 0 <= j < k ==> controllers[1..][j].cfg.playerIndex != index;
        assert controllers[k + 1] == rest;
        assert forall j :: 1 <= j < k + 1 ==> controllers[j] == controllers[1..][j - 1];
        rest
      else rest
  }
}
