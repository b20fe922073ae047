/**
 * The gadget controller of one player (GadgetController2D) as a pure state
 * machine. A `Snapshot` holds everything the controller reads and writes; the
 * functions below are one call of each of its handlers, and the class in
 * module Gadgets is proved to change its fields exactly as they say.
 *
 * Engine effects become state: instantiated prefabs are appended to
 * `spawned`, the single teleporter marker is an optional position, a HUD
 * refresh increments `hudRefreshes`, suspended coroutines are pending waits,
 * and the `enabled` flags of stunned behaviours are the `disabled` set.
 */
module GadgetSpec {
  import opened Common
  import opened Coroutines

  /** The seven usable gadgets, one `canUse*` flag and timer each. */
  datatype Gadget = Teleporter | Acorn | Launcher | Swipe | Invisibility | Shield | Boots

  /** The dispatch switch: which gadget an equipped item id triggers. */
  function GadgetFor(id: string): Option<Gadget>
  {
    if id == CheckpointId then Some(Teleporter)
    else if id == AcornId then Some(Acorn)
    else if id == LauncherId then Some(Launcher)
    else if id == TailSwipeId then Some(Swipe)
    else if id == InvisibilityCloakId then Some(Invisibility)
    else if id == ShieldId then Some(Shield)
    else if id == BootsId then Some(Boots)
    else None
  }

  /** The item id each `TryUse*` checks with IsEquipped. */
  function IdOf(g: Gadget): string
  {
    match g
    case Teleporter => CheckpointId
    case Acorn => AcornId
    case Launcher => LauncherId
    case Swipe => TailSwipeId
    case Invisibility => InvisibilityCloakId
    case Shield => ShieldId
    case Boots => BootsId
  }

  /**
   * The dispatch switch and the ids the gadgets check agree: an id selects a
   * gadget exactly when it is that gadget's id, and the two passive items
   * select none.
   */
  lemma DispatchMatchesGadgetIds(id: string, g: Gadget)
    ensures GadgetFor(id) == Some(g) <==> id == IdOf(g)
    ensures GadgetFor(ClimberClawsId) == None && GadgetFor(WingsuitId) == None
  {
    assert ClimberClawsId[0] == 'C' && WingsuitId[0] == 'W';
    assert CheckpointId[1] == 'h' && ClimberClawsId[1] == 'l';
  }

  /** A `canUse*` flag and its `*Timer`. */
  datatype Cooldown = Cooldown(canUse: bool, timer: real)

  /** `if (!canUse && (timer -= dt) <= 0f) canUse = true;` */
  function Tick(c: Cooldown, dt: real): Cooldown
  {
    if c.canUse then c else Cooldown(c.timer - dt <= 0.0, c.timer - dt)
  }

  /** The same tick over a run of frames. */
  function Ticks(c: Cooldown, dts: seq<real>): Cooldown
    decreases dts
  {
    if dts == [] then c else Ticks(Tick(c, dts[0]), dts[1..])
  }

  lemma {:induction false} ReadyStaysReady(c: Cooldown, dts: seq<real>)
    requires c.canUse
    ensures Ticks(c, dts) == c
    decreases dts
  {
    if dts != [] {
      ReadyStaysReady(c, dts[1..]);
    }
  }

  /**
   * A gadget put on cooldown with timer t is ready again exactly once the
   * frames since add up to t; until then its timer is t minus the time passed.
   */
  lemma {:induction false} ReadyOnceTimerElapsed(t: real, dts: seq<real>)
    requires forall i :: 0 <= i < |dts| ==> dts[i] >= 0.0
    ensures Ticks(Cooldown(false, t), dts).canUse <==> dts != [] && Sum(dts) >= t
    ensures !Ticks(Cooldown(false, t), dts).canUse ==> Ticks(Cooldown(false, t), dts).timer == t - Sum(dts)
    decreases dts
  {
    if dts != [] {
      SumNonNegative(dts[1..]);
      if t - dts[0] <= 0.0 {
        ReadyStaysReady(Cooldown(true, t - dts[0]), dts[1..]);
      } else {
        ReadyOnceTimerElapsed(t - dts[0], dts[1..]);
      }
    }
  }

  /** The seven flag/timer pairs. */
  datatype Cooldowns = Cooldowns(
    teleport: Cooldown, acorn: Cooldown, launcher: Cooldown, swipe: Cooldown,
    invisibility: Cooldown, shield: Cooldown, boots: Cooldown)
  {
    function Get(g: Gadget): Cooldown
    {
      match g
      case Teleporter => teleport
      case Acorn => acorn
      case Launcher => launcher
      case Swipe => swipe
      case Invisibility => invisibility
      case Shield => shield
      case Boots => boots
    }

    function Set(g: Gadget, c: Cooldown): (r: Cooldowns)
      ensures r.Get(g) == c
      ensures forall h :: h != g ==> r.Get(h) == Get(h)
    {
      match g
      case Teleporter => this.(teleport := c)
      case Acorn => this.(acorn := c)
      case Launcher => this.(launcher := c)
      case Swipe => this.(swipe := c)
      case Invisibility => this.(invisibility := c)
      case Shield => this.(shield := c)
      case Boots => this.(boots := c)
    }
  }

  /** Every gadget ready with a zero timer, as the fields are initialised. */
  const AllReady: Cooldowns :=
    var c := Cooldown(true, 0.0); Cooldowns(c, c, c, c, c, c, c)

  /** The serialized settings of the component. */
  datatype Config = Config(
    selfTag: string, playerIndex: int,
    placementOffset: Vec3, placementOffsetAcorn: Vec3, placementOffsetAmmo: Vec3,
    teleportCooldown: real, acornCooldown: real, launcherCooldown: real, launchSpeed: real,
    stunDuration: real, swipeCooldown: real,
    invisibilityDuration: real, invisibilityCooldown: real,
    shieldDuration: real, shieldCooldown: real,
    bootsDuration: real, bootsCooldown: real)

  /** The inspector defaults of the source, for the given player. */
  function Defaults(playerIndex: int): (cfg: Config)
    ensures cfg.teleportCooldown == cfg.acornCooldown == cfg.launcherCooldown == cfg.swipeCooldown
         == cfg.invisibilityCooldown == cfg.shieldCooldown == cfg.bootsCooldown == 2.0
    ensures cfg.invisibilityDuration == cfg.shieldDuration == cfg.bootsDuration == 3.0
    ensures cfg.stunDuration == 1.5 && cfg.launchSpeed == 5.0 && cfg.selfTag == PlayerTag
  {
    Config(PlayerTag, playerIndex, Origin, Vec3(0.0, 0.2, 0.0), Origin,
           2.0, 2.0, 2.0, 5.0, 1.5, 2.0, 3.0, 2.0, 3.0, 2.0, 3.0, 2.0)
  }

  /** The cooldown a successful use of the gadget starts. */
  function CooldownOf(cfg: Config, g: Gadget): real
  {
    match g
    case Teleporter => cfg.teleportCooldown
    case Acorn => cfg.acornCooldown
    case Launcher => cfg.launcherCooldown
    case Swipe => cfg.swipeCooldown
    case Invisibility => cfg.invisibilityCooldown
    case Shield => cfg.shieldCooldown
    case Boots => cfg.bootsCooldown
  }

  /** The fields of the player's controller the gadgets read or write. */
  datatype Status = Status(index: int, grounded: bool, isBoots: bool, isInvisible: bool, isShield: bool)

  /** What a suspended coroutine does when its wait ends. */
  datatype Routine = EndInvisibility | EndShield | Reenable(target: BehaviourId)

  /** An instantiated prefab: a dummy acorn tagged with its placer, or launched ammo. */
  datatype Spawn =
    | Decoy(pos: Vec3, placer: int)
    | Ammo(pos: Vec3, rotationZ: real, velocityX: Option<real>)

  /**
   * One collider found by the swipe's overlap query, as its game object: the
   * tag and which of PlayerController, NPCPatrol and MovingPlatform it has.
   */
  datatype Hit = Hit(tag: string, player: Option<int>, npc: Option<nat>, platform: Option<nat>)

  /**
   * What the scene provides during a use: the player's position, the
   * launcher's position if it is set, the controller's own x scale, whether
   * the ammo prefab has a rigidbody, and the swipe's overlap result.
   */
  datatype Env = Env(playerPos: Vec3, launcherPos: Option<Vec3>, scaleX: real, ammoHasBody: bool, hits: seq<Hit>)

  datatype Snapshot = Snapshot(
    cooldowns: Cooldowns,
    selectedIndex: int,
    lastEquipCount: int,
    teleporter: Option<Vec3>,
    shieldActive: bool,
    routines: seq<Wait<Routine>>,
    spawned: seq<Spawn>,
    hudRefreshes: nat,
    status: Option<Status>,
    disabled: set<BehaviourId>)

  function Refreshed(s: Snapshot): Snapshot
  {
    s.(hudRefreshes := s.hudRefreshes + 1)
  }

  // ---------------------------------------------------------------- ticks

  /** One gadget's tick; the HUD refreshes when the gadget becomes ready. */
  function TickGadget(s: Snapshot, g: Gadget, dt: real): (r: Snapshot)
    ensures r.cooldowns == s.cooldowns.Set(g, Tick(s.cooldowns.Get(g), dt))
    ensures r == s.(cooldowns := r.cooldowns, hudRefreshes := r.hudRefreshes)
    ensures r.hudRefreshes >= s.hudRefreshes
  {
    var c := s.cooldowns.Get(g);
    if c.canUse then s
    else
      var t := s.(cooldowns := s.cooldowns.Set(g, Tick(c, dt)));
      if Tick(c, dt).canUse then Refreshed(t) else t
  }

  /**
   * The cooldown block at the top of Update, in the source's order. Every
   * gadget is ticked independently of the others, and nothing but the
   * cooldowns and the refresh count changes.
   */
  function TickCooldowns(s: Snapshot, dt: real): (r: Snapshot)
    ensures forall g :: r.cooldowns.Get(g) == Tick(s.cooldowns.Get(g), dt)
    ensures r == s.(cooldowns := r.cooldowns, hudRefreshes := r.hudRefreshes)
    ensures r.hudRefreshes >= s.hudRefreshes
  {
    var s1 := TickGadget(s, Teleporter, dt);
    var s2 := TickGadget(s1, Acorn, dt);
    var s3 := TickGadget(s2, Swipe, dt);
    var s4 := TickGadget(s3, Invisibility, dt);
    var s5 := TickGadget(s4, Shield, dt);
    var s6 := TickGadget(s5, Boots, dt);
    TickGadget(s6, Launcher, dt)
  }

  // ------------------------------------------------------------ selection

  function Max(a: int, b: int): int { if a >= b then a else b }

  /** Mathf.Clamp on ints. */
  function Clamp(v: int, lo: int, hi: int): int
  {
    if v < lo then lo else if v > hi then hi else v
  }

  /** C#'s `%`, which truncates toward zero. */
  function CsRem(a: int, n: int): int
    requires n > 0
  {
    if a >= 0 then a % n else -((-a) % n)
  }

  /** The controller's own invariant: the selection lies in [0, max(0, count - 1)]. */
  predicate SelectionOk(s: Snapshot)
  {
    0 <= s.lastEquipCount && 0 <= s.selectedIndex <= Max(0, s.lastEquipCount - 1)
  }

  /** ChangeSelection: the HUD refreshes only when the index actually changes. */
  function ChangeSelection(s: Snapshot, newIndex: int): (r: Snapshot)
    ensures r.selectedIndex == newIndex
    ensures r == s.(selectedIndex := newIndex, hudRefreshes := r.hudRefreshes)
  {
    if newIndex == s.selectedIndex then s else Refreshed(s.(selectedIndex := newIndex))
  }

  /** A change of the equipped count re-clamps the selection. */
  function SyncEquipCount(s: Snapshot, n: nat): (r: Snapshot)
    ensures SelectionOk(s) ==> SelectionOk(r)
    ensures n != s.lastEquipCount ==> SelectionOk(r)
    ensures r.lastEquipCount == n
  {
    if n != s.lastEquipCount then
      Refreshed(s.(lastEquipCount := n, selectedIndex := Clamp(s.selectedIndex, 0, Max(0, n - 1))))
    else s
  }

  /** The three slot keys of a player: 1, 2, 3 for player 0 and 8, 9, 0 for any other. */
  function SlotKey(playerIndex: int, slot: nat): KeyCode
  {
    if playerIndex == 0 then (if slot == 0 then Alpha1 else if slot == 1 then Alpha2 else Alpha3)
    else (if slot == 0 then Alpha8 else if slot == 1 then Alpha9 else Alpha0)
  }

  /** Q moves one slot back, E one forward, cyclically; both players use them. */
  function CyclePrev(i: int, n: int): int requires n > 0 { CsRem(i + n - 1, n) }
  function CycleNext(i: int, n: int): int requires n > 0 { CsRem(i + 1, n) }

  lemma ModBelow(a: int, n: int)
    requires 0 <= a < n
    ensures a % n == a
  {
  }

  lemma ModWrap(a: int, n: int)
    requires n <= a < 2 * n
    ensures a % n == a - n
  {
  }

  /** Q then E, or E then Q, returns to the slot one started from. */
  lemma CycleRoundTrip(i: int, n: int)
    requires 0 <= i < n
    ensures 0 <= CyclePrev(i, n) < n && 0 <= CycleNext(i, n) < n
    ensures CycleNext(CyclePrev(i, n), n) == i
    ensures CyclePrev(CycleNext(i, n), n) == i
  {
    if i == 0 {
      ModBelow(n - 1, n);
      ModWrap(n, n);
    } else {
      ModWrap(i + n - 1, n);
      ModBelow(i, n);
    }
    if i == n - 1 {
      ModWrap(n, n);
      ModWrap(2 * n - 1, n);
    } else {
      ModBelow(i + 1, n);
      ModWrap(i + n, n);
    }
  }

  /** The three slot keys, each only when the equipped count has that slot. */
  function SlotKeys(s: Snapshot, n: nat, playerIndex: int, input: Input): (r: Snapshot)
    ensures SelectionOk(s) && s.lastEquipCount == n ==> SelectionOk(r)
    ensures r == s.(selectedIndex := r.selectedIndex, hudRefreshes := r.hudRefreshes)
  {
    var s1 := if SlotKey(playerIndex, 0) in input.down && n >= 1 then ChangeSelection(s, 0) else s;
    var s2 := if SlotKey(playerIndex, 1) in input.down && n >= 2 then ChangeSelection(s1, 1) else s1;
    if SlotKey(playerIndex, 2) in input.down && n >= 3 then ChangeSelection(s2, 2) else s2
  }

  /** Q then E, each only when something is equipped. */
  function CycleKeys(s: Snapshot, n: nat, input: Input): (r: Snapshot)
    ensures SelectionOk(s) && s.lastEquipCount == n ==> SelectionOk(r)
    ensures r == s.(selectedIndex := r.selectedIndex, hudRefreshes := r.hudRefreshes)
  {
    var s4 := if Q in input.down && n > 0 then ChangeSelection(s, CyclePrev(s.selectedIndex, n)) else s;
    var s5 := if E in input.down && n > 0 then ChangeSelection(s4, CycleNext(s4.selectedIndex, n)) else s4;
    assert SelectionOk(s) && s.lastEquipCount == n && n > 0 ==> 0 <= s4.selectedIndex < n by {
      if SelectionOk(s) && s.lastEquipCount == n && n > 0 && Q in input.down {
        CycleRoundTrip(s.selectedIndex, n);
      }
    }
    assert SelectionOk(s) && s.lastEquipCount == n && n > 0 && E in input.down ==> 0 <= s5.selectedIndex < n by {
      if SelectionOk(s) && s.lastEquipCount == n && n > 0 && E in input.down {
        CycleRoundTrip(s4.selectedIndex, n);
      }
    }
    s5
  }

  /** The slot keys, then Q, then E. */
  function SelectionKeys(s: Snapshot, n: nat, playerIndex: int, input: Input): (r: Snapshot)
    ensures SelectionOk(s) && s.lastEquipCount == n ==> SelectionOk(r)
    ensures r == s.(selectedIndex := r.selectedIndex, hudRefreshes := r.hudRefreshes)
  {
    CycleKeys(SlotKeys(s, n, playerIndex, input), n, input)
  }

  // ------------------------------------------------------------- the uses

  /** The behaviours one hit object has: PlayerController, NPCPatrol, MovingPlatform, in that order. */
  function HitTargets(h: Hit): seq<BehaviourId>
  {
    (if h.player.Some? then [PlayerCtl(h.player.value)] else [])
    + (if h.npc.Some? then [Npc(h.npc.value)] else [])
    + (if h.platform.Some? then [Platform(h.platform.value)] else [])
  }

  /** What the swipe stuns of one hit object: nothing if it is tagged selfTag. */
  function HitStun(h: Hit, selfTag: string): seq<BehaviourId>
  {
    if h.tag == selfTag then [] else HitTargets(h)
  }

  /** Every behaviour the swipe stuns, hit by hit, skipping objects tagged selfTag. */
  function StunTargets(hits: seq<Hit>, selfTag: string): seq<BehaviourId>
  {
    if hits == [] then []
    else StunTargets(hits[..|hits| - 1], selfTag) + HitStun(hits[|hits| - 1], selfTag)
  }

  /**
   * The swipe stuns exactly the PlayerControllers, NPCPatrols and
   * MovingPlatforms of the hit objects not tagged selfTag.
   */
  lemma {:induction false} StunTargetsExactly(hits: seq<Hit>, selfTag: string, b: BehaviourId)
    ensures b in StunTargets(hits, selfTag) <==>
      exists i :: 0 <= i < |hits| && hits[i].tag != selfTag && b in HitTargets(hits[i])
  {
    if hits != [] {
      var init := hits[..|hits| - 1];
      StunTargetsExactly(init, selfTag, b);
      if b in StunTargets(init, selfTag) {
        var i :| 0 <= i < |init| && init[i].tag != selfTag && b in HitTargets(init[i]);
        assert hits[i] == init[i];
      }
      if exists i :: 0 <= i < |hits| && hits[i].tag != selfTag && b in HitTargets(hits[i]) {
        var i :| 0 <= i < |hits| && hits[i].tag != selfTag && b in HitTargets(hits[i]);
        if i < |hits| - 1 {
          assert init[i] == hits[i];
        }
      }
    }
  }

  /** One StunComponent wait per stunned behaviour, in order. */
  function StunWaits(targets: seq<BehaviourId>, duration: real): (r: seq<Wait<Routine>>)
    ensures |r| == |targets|
  {
    seq(|targets|, k requires 0 <= k < |targets| => Wait(Reenable(targets[k]), duration))
  }

  lemma StunWaitsAt(targets: seq<BehaviourId>, duration: real, k: nat)
    requires k < |targets|
    ensures StunWaits(targets, duration)[k] == Wait(Reenable(targets[k]), duration)
  {
  }

  /** Stunning one more behaviour adds its wait at the end. */
  lemma StunWaitsSnoc(a: seq<BehaviourId>, b: BehaviourId, duration: real)
    ensures StunWaits(a + [b], duration) == StunWaits(a, duration) + [Wait(Reenable(b), duration)]
    ensures Elements(a + [b]) == Elements(a) + {b}
  {
  }

  lemma StunWaitsAppend(a: seq<BehaviourId>, b: seq<BehaviourId>, duration: real)
    ensures StunWaits(a + b, duration) == StunWaits(a, duration) + StunWaits(b, duration)
  {
  }

  /** The set of elements of a sequence. */
  function Elements<T>(s: seq<T>): set<T>
  {
    set x | x in s
  }

  lemma ElementsAppend<T>(a: seq<T>, b: seq<T>)
    ensures Elements(a + b) == Elements(a) + Elements(b)
  {
  }

  /** Taking one more hit adds that hit's targets, unless it is tagged selfTag. */
  lemma StunTargetsStep(hits: seq<Hit>, i: nat, selfTag: string)
    requires i < |hits|
    ensures StunTargets(hits[..i + 1], selfTag) == StunTargets(hits[..i], selfTag) + HitStun(hits[i], selfTag)
  {
    assert hits[..i + 1][..i] == hits[..i];
  }

  /** The StunWaits and the stunned set after one more hit. */
  lemma StunAllStep(hits: seq<Hit>, i: nat, selfTag: string, duration: real)
    requires i < |hits|
    ensures var added := HitStun(hits[i], selfTag);
      && StunWaits(StunTargets(hits[..i + 1], selfTag), duration)
         == StunWaits(StunTargets(hits[..i], selfTag), duration) + StunWaits(added, duration)
      && Elements(StunTargets(hits[..i + 1], selfTag))
         == Elements(StunTargets(hits[..i], selfTag)) + Elements(added)
  {
    var added := HitStun(hits[i], selfTag);
    StunTargetsStep(hits, i, selfTag);
    StunWaitsAppend(StunTargets(hits[..i], selfTag), added, duration);
    ElementsAppend(StunTargets(hits[..i], selfTag), added);
  }

  /**
   * One `TryUse*` call for gadget g, with `equipped` the player's equipped
   * list. Each use first checks that its id is equipped and its flag is set.
   * A missing player controller is modelled by where the source would throw:
   * the teleporter's grounded clause throws before any change, the acorn
   * returns, the boots throw after clearing the flag, and the cloak and shield
   * coroutines end after clearing the flag (the HUD still refreshes).
   */
  function TryUse(s: Snapshot, cfg: Config, g: Gadget, equipped: seq<string>, env: Env): (r: Snapshot)
    ensures r.selectedIndex == s.selectedIndex && r.lastEquipCount == s.lastEquipCount
  {
    if IdOf(g) !in equipped || !s.cooldowns.Get(g).canUse then s
    else
      match g
      case Teleporter => PlaceTeleporter(s, cfg, env)
      case Acorn => DropAcorn(s, cfg, env)
      case Launcher => LaunchAmmo(s, cfg, env)
      case Swipe => SwipeTail(s, cfg, env)
      case Invisibility => StartCloak(s, cfg)
      case Shield => StartShield(s, cfg)
      case Boots => ChargeBoots(s, cfg)
  }

  /** A gadget's flag cleared and its timer set to its cooldown. */
  function Started(s: Snapshot, cfg: Config, g: Gadget): Cooldowns
  {
    s.cooldowns.Set(g, Cooldown(false, CooldownOf(cfg, g)))
  }

  /** A gadget's flag cleared, its timer left as it was. */
  function Cleared(s: Snapshot, g: Gadget): Cooldowns
  {
    s.cooldowns.Set(g, s.cooldowns.Get(g).(canUse := false))
  }

  function PlaceTeleporter(s: Snapshot, cfg: Config, env: Env): Snapshot
  {
    if s.status.None? then s
    else Refreshed(s.(teleporter := Some(env.playerPos.Plus(cfg.placementOffset)), cooldowns := Started(s, cfg, Teleporter)))
  }

  function DropAcorn(s: Snapshot, cfg: Config, env: Env): Snapshot
  {
    if s.status.None? then s
    else Refreshed(s.(spawned := s.spawned + [Decoy(env.playerPos.Plus(cfg.placementOffsetAcorn), s.status.value.index)],
                      cooldowns := Started(s, cfg, Acorn)))
  }

  function LaunchAmmo(s: Snapshot, cfg: Config, env: Env): Snapshot
  {
    if env.launcherPos.None? then s
    else
      var facing := if env.scaleX >= 0.0 then 1.0 else -1.0;
      var ammo := Ammo(env.launcherPos.value.Plus(cfg.placementOffsetAmmo),
                       if facing > 0.0 then 90.0 else -90.0,
                       if env.ammoHasBody then Some(facing * cfg.launchSpeed) else None);
      Refreshed(s.(spawned := s.spawned + [ammo], cooldowns := Started(s, cfg, Launcher)))
  }

  function SwipeTail(s: Snapshot, cfg: Config, env: Env): Snapshot
  {
    var targets := StunTargets(env.hits, cfg.selfTag);
    Refreshed(s.(disabled := s.disabled + Elements(targets),
                 routines := s.routines + StunWaits(targets, cfg.stunDuration),
                 cooldowns := Started(s, cfg, Swipe)))
  }

  function StartCloak(s: Snapshot, cfg: Config): Snapshot
  {
    if s.status.None? then Refreshed(s.(cooldowns := Cleared(s, Invisibility)))
    else Refreshed(s.(cooldowns := Cleared(s, Invisibility), status := Some(s.status.value.(isInvisible := true)),
                      routines := s.routines + [Wait(EndInvisibility, cfg.invisibilityDuration)]))
  }

  function StartShield(s: Snapshot, cfg: Config): Snapshot
  {
    if s.status.None? then Refreshed(s.(cooldowns := Cleared(s, Shield)))
    else Refreshed(s.(cooldowns := Cleared(s, Shield), status := Some(s.status.value.(isShield := true)), shieldActive := true,
                      routines := s.routines + [Wait(EndShield, cfg.invisibilityDuration)]))
  }

  function ChargeBoots(s: Snapshot, cfg: Config): Snapshot
  {
    if s.status.None? then s.(cooldowns := Cleared(s, Boots))
    else Refreshed(s.(cooldowns := Started(s, cfg, Boots), status := Some(s.status.value.(isBoots := true))))
  }

  /** The use key: R for player 0, P for any other. */
  function UseKey(playerIndex: int): KeyCode
  {
    if playerIndex == 0 then R else P
  }

  /** The use key runs the gadget of the selected slot; passive items do nothing. */
  function Dispatch(s: Snapshot, cfg: Config, equipped: seq<string>, input: Input, env: Env): (r: Snapshot)
    requires |equipped| > 0 ==> 0 <= s.selectedIndex < |equipped|
    ensures r.selectedIndex == s.selectedIndex && r.lastEquipCount == s.lastEquipCount
  {
    if UseKey(cfg.playerIndex) in input.down && |equipped| > 0 then
      match GadgetFor(equipped[s.selectedIndex])
      case None => s
      case Some(g) => TryUse(s, cfg, g, equipped, env)
    else s
  }

  /**
   * One Update: cooldown ticks, re-clamping, selection keys, dispatch. The
   * selection stays in [0, max(0, count - 1)], so the dispatch's
   * `equipped[selectedIndex]` is always in bounds.
   */
  function Update(s: Snapshot, cfg: Config, dt: real, equipped: seq<string>, input: Input, env: Env): (r: Snapshot)
    requires SelectionOk(s)
    ensures SelectionOk(r) && r.lastEquipCount == |equipped|
  {
    var s1 := TickCooldowns(s, dt);
    var s2 := SyncEquipCount(s1, |equipped|);
    var s3 := SelectionKeys(s2, |equipped|, cfg.playerIndex, input);
    Dispatch(s3, cfg, equipped, input, env)
  }

  // ------------------------------------------------------------ coroutines

  /** The rest of one coroutine, run when its wait ends. */
  function Continue(s: Snapshot, cfg: Config, e: Routine): Snapshot
  {
    match e
    case EndInvisibility =>
      s.(status := if s.status.None? then None else Some(s.status.value.(isInvisible := false)),
         cooldowns := s.cooldowns.Set(Invisibility, s.cooldowns.invisibility.(timer := cfg.invisibilityCooldown)))
    case EndShield =>
      s.(status := if s.status.None? then None else Some(s.status.value.(isShield := false)),
         shieldActive := false,
         cooldowns := s.cooldowns.Set(Shield, s.cooldowns.shield.(timer := cfg.shieldCooldown)))
    case Reenable(b) =>
      s.(disabled := s.disabled - {b})
  }

  /** The continuations of a frame, run in the order their coroutines started. */
  function ResumeEvents(s: Snapshot, cfg: Config, evs: seq<Routine>): Snapshot
  {
    if evs == [] then s
    else Continue(ResumeEvents(s, cfg, evs[..|evs| - 1]), cfg, evs[|evs| - 1])
  }

  /** The behaviours whose stun ends among the given continuations. */
  function Reenabled(evs: seq<Routine>): set<BehaviourId>
  {
    set e | e in evs && e.Reenable? :: e.target
  }

  /**
   * r is s after continuations that may end the cloak, may end the shield and
   * re-enable the given behaviours: the cloak's end clears isInvisible and
   * sets the invisibility timer (not the flag) to its cooldown, the shield's
   * end does the same for the shield, and nothing else changes.
   */
  predicate ResumedFrom(s: Snapshot, r: Snapshot, cfg: Config, endCloak: bool, endShield: bool, reenabled: set<BehaviourId>)
  {
    && r == s.(status := r.status, shieldActive := r.shieldActive, cooldowns := r.cooldowns, disabled := r.disabled)
    && r.status.Some? == s.status.Some?
    && (r.status.Some? ==>
          r.status.value == s.status.value.(isInvisible := s.status.value.isInvisible && !endCloak,
                                            isShield := s.status.value.isShield && !endShield))
    && r.shieldActive == (s.shieldActive && !endShield)
    && r.cooldowns == s.cooldowns.(
         invisibility := if endCloak then s.cooldowns.invisibility.(timer := cfg.invisibilityCooldown) else s.cooldowns.invisibility,
         shield := if endShield then s.cooldowns.shield.(timer := cfg.shieldCooldown) else s.cooldowns.shield)
    && r.disabled == s.disabled - reenabled
  }

  /** One more continuation adds its own effect to those already run. */
  lemma ContinueEffect(s: Snapshot, r: Snapshot, cfg: Config, endCloak: bool, endShield: bool,
                       reenabled: set<BehaviourId>, e: Routine)
    requires ResumedFrom(s, r, cfg, endCloak, endShield, reenabled)
    ensures ResumedFrom(s, Continue(r, cfg, e), cfg, endCloak || e == EndInvisibility, endShield || e == EndShield,
                        reenabled + (if e.Reenable? then {e.target} else {}))
  {
  }

  /** The order of the continuations does not matter: their effects add up. */
  lemma {:induction false} ResumeEventsEffect(s: Snapshot, cfg: Config, evs: seq<Routine>)
    ensures ResumedFrom(s, ResumeEvents(s, cfg, evs), cfg, EndInvisibility in evs, EndShield in evs, Reenabled(evs))
  {
    if evs == [] {
      assert Reenabled(evs) == {};
    } else {
      var init, last := evs[..|evs| - 1], evs[|evs| - 1];
      assert evs == init + [last];
      ResumeEventsEffect(s, cfg, init);
      ContinueEffect(s, ResumeEvents(s, cfg, init), cfg, EndInvisibility in init, EndShield in init, Reenabled(init), last);
      assert Reenabled(evs) == Reenabled(init) + (if last.Reenable? then {last.target} else {});
      assert (EndInvisibility in evs) == (EndInvisibility in init || last == EndInvisibility);
      assert (EndShield in evs) == (EndShield in init || last == EndShield);
    }
  }

  /** One frame's resumption of the controller's coroutines. */
  function Resume(s: Snapshot, cfg: Config, dt: real): Snapshot
  {
    ResumeEvents(s.(routines := Later(s.routines, dt)), cfg, Due(s.routines, dt))
  }

  // ---------------------------------------------------------- properties

  /**
   * A use changes something only when the gadget's id is equipped and its flag
   * is set; from the dispatch this means the selected slot holds a gadget id
   * whose gadget is ready, and a passive item's slot changes nothing.
   */
  lemma DispatchOnlyUsesReadyGadget(s: Snapshot, cfg: Config, equipped: seq<string>, input: Input, env: Env)
    requires |equipped| > 0 ==> 0 <= s.selectedIndex < |equipped|
    ensures var r := Dispatch(s, cfg, equipped, input, env);
      r != s ==> && UseKey(cfg.playerIndex) in input.down
                 && |equipped| > 0
                 && GadgetFor(equipped[s.selectedIndex]).Some?
                 && s.cooldowns.Get(GadgetFor(equipped[s.selectedIndex]).value).canUse
  {
    if UseKey(cfg.playerIndex) in input.down && |equipped| > 0 {
      var id := equipped[s.selectedIndex];
      match GadgetFor(id)
      case None =>
      case Some(g) =>
        DispatchMatchesGadgetIds(id, g);
        assert IdOf(g) in equipped;
    }
  }

  /** Any gadget whose id is not equipped, or whose flag is clear, is left alone. */
  lemma UseNeedsEquippedAndReady(s: Snapshot, cfg: Config, g: Gadget, equipped: seq<string>, env: Env)
    ensures TryUse(s, cfg, g, equipped, env) != s ==> IdOf(g) in equipped && s.cooldowns.Get(g).canUse
  {
  }

  /**
   * A successful teleporter, acorn, launcher, swipe or boots use clears the
   * flag and sets the timer to that gadget's own cooldown, touches no other
   * gadget, and refreshes the HUD once. The boots charge the player, the acorn
   * carries the placer's index, and the teleporter marker moves to the
   * player's position plus the offset whether or not the player is grounded.
   */
  lemma InstantUseStartsCooldown(s: Snapshot, cfg: Config, g: Gadget, equipped: seq<string>, env: Env)
    requires !g.Invisibility? && !g.Shield?
    requires IdOf(g) in equipped && s.cooldowns.Get(g).canUse
    requires g.Teleporter? || g.Acorn? || g.Boots? ==> s.status.Some?
    requires g.Launcher? ==> env.launcherPos.Some?
    ensures var r := TryUse(s, cfg, g, equipped, env);
      && r.cooldowns.Get(g) == Cooldown(false, CooldownOf(cfg, g))
      && (forall h :: h != g ==> r.cooldowns.Get(h) == s.cooldowns.Get(h))
      && r.hudRefreshes == s.hudRefreshes + 1
      && (g.Boots? ==> r.status == Some(s.status.value.(isBoots := true)))
      && (g.Acorn? ==> r.spawned == s.spawned + [Decoy(env.playerPos.Plus(cfg.placementOffsetAcorn), s.status.value.index)])
      && (g.Teleporter? ==> r.teleporter == Some(env.playerPos.Plus(cfg.placementOffset)))
      && (g.Launcher? ==> |r.spawned| == |s.spawned| + 1 && r.spawned[|s.spawned|].Ammo?)
  {
  }

  /**
   * The ammo flies along x in the direction of the controller's x scale (right
   * for a zero scale, as Mathf.Sign gives 1 for 0), rotated to point forward,
   * at launchSpeed when the prefab has a rigidbody.
   */
  lemma AmmoFollowsFacing(s: Snapshot, cfg: Config, equipped: seq<string>, env: Env)
    requires LauncherId in equipped && s.cooldowns.launcher.canUse && env.launcherPos.Some?
    ensures var a := TryUse(s, cfg, Launcher, equipped, env).spawned[|s.spawned|];
      && a.pos == env.launcherPos.value.Plus(cfg.placementOffsetAmmo)
      && (a.rotationZ == 90.0 <==> env.scaleX >= 0.0)
      && (a.rotationZ == -90.0 <==> env.scaleX < 0.0)
      && (env.ammoHasBody ==> a.velocityX == Some(if env.scaleX >= 0.0 then cfg.launchSpeed else -cfg.launchSpeed))
      && (!env.ammoHasBody ==> a.velocityX.None?)
  {
  }

  /**
   * The teleporter's grounded clause never blocks a player that has a
   * controller: the marker is placed in the air as on the ground. Without a
   * controller the clause throws and nothing changes.
   */
  lemma TeleporterIgnoresGrounding(s: Snapshot, cfg: Config, equipped: seq<string>, env: Env, grounded: bool)
    requires CheckpointId in equipped && s.cooldowns.teleport.canUse
    ensures s.status.Some? ==>
      var airborne := s.(status := Some(s.status.value.(grounded := grounded)));
      TryUse(airborne, cfg, Teleporter, equipped, env).teleporter == Some(env.playerPos.Plus(cfg.placementOffset))
    ensures s.status.None? ==> TryUse(s, cfg, Teleporter, equipped, env) == s
  {
  }

  /**
   * Activating the cloak or the shield clears its flag (the timer keeps its
   * old value), raises the player's status and starts one wait; the shield's
   * wait lasts invisibilityDuration, not shieldDuration.
   */
  lemma CloakAndShieldActivation(s: Snapshot, cfg: Config, g: Gadget, equipped: seq<string>, env: Env)
    requires g.Invisibility? || g.Shield?
    requires IdOf(g) in equipped && s.cooldowns.Get(g).canUse && s.status.Some?
    ensures var r := TryUse(s, cfg, g, equipped, env);
      && r.cooldowns.Get(g) == Cooldown(false, s.cooldowns.Get(g).timer)
      && r.status.Some?
      && (g.Invisibility? ==> r.status.value.isInvisible && r.routines == s.routines + [Wait(EndInvisibility, cfg.invisibilityDuration)])
      && (g.Shield? ==> r.status.value.isShield && r.shieldActive && r.routines == s.routines + [Wait(EndShield, cfg.invisibilityDuration)])
  {
  }

  /**
   * Without a controller the boots only lose their flag, and the cloak and
   * shield lose their flag and refresh the HUD, with no routine left pending.
   */
  lemma MissingControllerEffects(s: Snapshot, cfg: Config, g: Gadget, equipped: seq<string>, env: Env)
    requires g.Boots? || g.Invisibility? || g.Shield? || g.Acorn?
    requires IdOf(g) in equipped && s.cooldowns.Get(g).canUse && s.status.None?
    ensures var r := TryUse(s, cfg, g, equipped, env);
      && (g.Acorn? ==> r == s)
      && (!g.Acorn? ==> r.cooldowns.Get(g) == Cooldown(false, s.cooldowns.Get(g).timer) && r.routines == s.routines)
      && (g.Boots? ==> r.hudRefreshes == s.hudRefreshes)
  {
  }

  /**
   * The swipe disables exactly the behaviours of the hit objects not tagged
   * selfTag, and leaves one stunDuration wait pending for each of them.
   */
  lemma SwipeStunsHitObjects(s: Snapshot, cfg: Config, equipped: seq<string>, env: Env, b: BehaviourId)
    requires TailSwipeId in equipped && s.cooldowns.swipe.canUse
    requires b !in s.disabled
    ensures var r := TryUse(s, cfg, Swipe, equipped, env);
      b in r.disabled <==> exists i :: 0 <= i < |env.hits| && env.hits[i].tag != cfg.selfTag && b in HitTargets(env.hits[i])
    ensures var r := TryUse(s, cfg, Swipe, equipped, env);
      b in r.disabled ==> Wait(Reenable(b), cfg.stunDuration) in r.routines[|s.routines|..]
  {
    var targets := StunTargets(env.hits, cfg.selfTag);
    StunTargetsExactly(env.hits, cfg.selfTag, b);
    var r := TryUse(s, cfg, Swipe, equipped, env);
    if b in r.disabled {
      var k :| 0 <= k < |targets| && targets[k] == b;
      assert r.routines[|s.routines|..] == StunWaits(targets, cfg.stunDuration);
      StunWaitsAt(targets, cfg.stunDuration, k);
      assert r.routines[|s.routines|..][k] == Wait(Reenable(b), cfg.stunDuration);
    }
  }

  /**
   * When a cloak or shield wait ends in a frame, the status is cleared and the
   * timer set to that gadget's cooldown; the flag itself is not touched.
   */
  lemma RoutineEndClearsStatus(s: Snapshot, cfg: Config, dt: real, i: nat)
    requires i < |s.routines| && s.routines[i].left <= dt && s.status.Some?
    requires s.routines[i].event == EndInvisibility || s.routines[i].event == EndShield
    ensures var r := Resume(s, cfg, dt);
      && r.status.Some?
      && (s.routines[i].event == EndInvisibility ==>
            !r.status.value.isInvisible
            && r.cooldowns.invisibility == Cooldown(s.cooldowns.invisibility.canUse, cfg.invisibilityCooldown))
      && (s.routines[i].event == EndShield ==>
            !r.status.value.isShield && !r.shieldActive
            && r.cooldowns.shield == Cooldown(s.cooldowns.shield.canUse, cfg.shieldCooldown))
  {
    DueIff(s.routines, dt, s.routines[i].event);
    ResumeEventsEffect(s.(routines := Later(s.routines, dt)), cfg, Due(s.routines, dt));
  }

  /** A stun's end re-enables the behaviour, and only a stun's end does. */
  lemma StunEndReenables(s: Snapshot, cfg: Config, dt: real, b: BehaviourId)
    ensures b in s.disabled && b !in Resume(s, cfg, dt).disabled <==>
      b in s.disabled && exists i :: 0 <= i < |s.routines| && s.routines[i].event == Reenable(b) && s.routines[i].left <= dt
  {
    DueIff(s.routines, dt, Reenable(b));
    ResumeEventsEffect(s.(routines := Later(s.routines, dt)), cfg, Due(s.routines, dt));
  }

  /**
   * No cooldown lockout for the cloak: the frame after activation, the tick
   * makes it ready again as soon as its stale timer is at most the frame time,
   * while the player is still invisible. The first use ever (timer 0) is
   * therefore usable again the very next frame.
   */
  lemma CloakReadyWhileStillInvisible(s: Snapshot, cfg: Config, equipped: seq<string>, env: Env, dt: real)
    requires InvisibilityCloakId in equipped && s.cooldowns.invisibility.canUse && s.status.Some?
    requires forall i :: 0 <= i < |s.routines| ==> s.routines[i].event != EndInvisibility
    requires s.cooldowns.invisibility.timer <= dt < cfg.invisibilityDuration
    ensures var used := TryUse(s, cfg, Invisibility, equipped, env);
      var next := TickCooldowns(Resume(used, cfg, dt), dt);
      next.cooldowns.invisibility.canUse && next.status.Some? && next.status.value.isInvisible
  {
    var used := TryUse(s, cfg, Invisibility, equipped, env);
    DueAppend(s.routines, Wait(EndInvisibility, cfg.invisibilityDuration), dt);
    DueIff(s.routines, dt, EndInvisibility);
    assert EndInvisibility !in Due(used.routines, dt);
    ResumeEventsEffect(used.(routines := Later(used.routines, dt)), cfg, Due(used.routines, dt));
  }

  /** The same for the shield, whose wait is invisibilityDuration long. */
  lemma ShieldReadyWhileStillShielded(s: Snapshot, cfg: Config, equipped: seq<string>, env: Env, dt: real)
    requires ShieldId in equipped && s.cooldowns.shield.canUse && s.status.Some?
    requires forall i :: 0 <= i < |s.routines| ==> s.routines[i].event != EndShield
    requires s.cooldowns.shield.timer <= dt < cfg.invisibilityDuration
    ensures var used := TryUse(s, cfg, Shield, equipped, env);
      var next := TickCooldowns(Resume(used, cfg, dt), dt);
      next.cooldowns.shield.canUse && next.status.Some? && next.status.value.isShield && next.shieldActive
  {
    var used := TryUse(s, cfg, Shield, equipped, env);
    DueAppend(s.routines, Wait(EndShield, cfg.invisibilityDuration), dt);
    DueIff(s.routines, dt, EndShield);
    assert EndShield !in Due(used.routines, dt);
    ResumeEventsEffect(used.(routines := Later(used.routines, dt)), cfg, Due(used.routines, dt));
  }
}
