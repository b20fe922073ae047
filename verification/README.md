# Operation Nutcracker — a Dafny model of the gadget core and level mechanics

Operation Nutcracker is a two-player Unity platformer. Two squirrels collect acorns in each
level and spend them in a shop between levels. The shop sells gadgets. A player equips up to
three of them and uses the selected one during play:

- a teleporter checkpoint;
- dummy acorns that stun the opponent;
- an acorn launcher;
- a tail swipe;
- an invisibility cloak;
- a shield;
- spring boots.

The passive items are the climber claws and the wingsuit. The levels are built from small
trigger-driven mechanisms: pressure buttons, a two-player button puzzle, cycling lasers, hooks
that carry a player, and an elevator. A tutorial guide, a shopkeeper, a backstory slideshow and
a countdown timer tie the scenes together.

This project models that core in Dafny. It has three layers:

- **The equipment registry** (`Registry`). It holds each player's purchases, equipped list,
  acorn count and teleporter position, and the shop counter that picks the next level. It is a
  class whose methods change its list fields and keep a `Valid()` invariant. The invariant says
  the equipped list is duplicate-free, holds at most three items, and every item in it is
  purchased.
- **The gadget controller** (`GadgetSpec`, `Gadgets`). `GadgetSpec` defines one frame of the
  controller as pure functions on a `Snapshot` of everything the controller reads and writes:
  - the cooldown ticks;
  - the selection keys;
  - the use-key dispatch;
  - each `TryUse*`;
  - the continuations of its coroutines.

  The lemmas about those functions state what the game promises. The class
  `Gadgets.GadgetController2D` holds the source's fields. Each of its methods is proved to change
  them exactly as the matching `GadgetSpec` function says.
- **The consumers and level mechanics**. Each is a class with the source's fields and per-event
  methods: the HUD, the shop, the player, the climber, the decoy acorn, the launched ammo, the
  acorn collector, the scene changer, the pressure button, the puzzle, the lasers, the hook, the
  elevator, both dialogues, the slideshow and the countdown. Where a method's logic is a
  function of the old state, that step is also a pure function with lemmas about runs of steps.

Unity's engine calls become explicit values:

- **Frame time** is an exact `real` `dt` handed to each update.
- **Keyboard state** is an `Input` value: the keys pressed this frame and the keys held.
- **Game objects** become `GameObject` handles with an active flag.
- **Enabled components** are flags in a shared `Behaviours` table.
- **Coroutines** become pending waits (`Coroutines.Wait`). A component's `ResumeCoroutines(dt)`
  runs the ones that are due and counts down the rest. Lemmas show that a wait of `d` resumes
  exactly once, in the first frame by which the elapsed frames add up to `d`.
- **Physics queries** (overlap hits, trigger contacts, "a box covers this button") are
  parameters.
- **Instantiated prefabs** are recorded in a list of spawned objects.
- **A null-reference or index exception** ends the handler where the source would throw. The
  effects made before that point are kept.

The model follows the code as written in a few places where a comment or the obvious design
intent says otherwise:

- **Pressure button.** `SetStates(true)` turns the primary object off and the secondary on,
  the opposite of its doc comment.
- **Teleporter.** Its "grounded" clause never blocks a player that has a controller.
- **Shield.** It waits the invisibility duration, not its own.
- **Cloak and shield readiness.** Both become usable again as soon as their timer, which may be
  stale, runs out, even while still active. `GadgetSpec.CloakReadyWhileStillInvisible` and
  `GadgetSpec.ShieldReadyWhileStillShielded` state this.
- **Shop progression after a restart.** A restart sets the shop counter to 1. The tutorial's
  shop visit then counts as the second, so the level after it is the Pavilion, not the Forest
  (`Scenes.ShopVisitsLeadThroughLevels`).
- **Climber gravity.** Leaving a climb zone mid-climb and deselecting the claws before the next
  frame leaves gravity switched off (`Climbing.ExitThenDeselectKeepsGravitySuspended`).

## Model

| member | source | states |
|---|---|---|
| Registry.IndexOf | Assets/GameManager.cs:128-131 | the position found holds the item and no earlier position does |
| Registry.RemoveFirstCutsFirstOccurrence | Assets/GameManager.cs:128-131 | `List.Remove` leaves a list without the item unchanged, and otherwise cuts out exactly its first occurrence |
| Registry.RemoveFirstFromDuplicateFree | Assets/GameManager.cs:128-131 | on a duplicate-free list, removal keeps it duplicate-free, removes exactly that item and shortens the list by one iff the item was there |
| Registry.GameManager.constructor | Assets/GameManager.cs:10-33 | fresh registry: empty lists, zero acorns, two teleporter slots at the origin, shop counter 0, invariant holds |
| Registry.GameManager.SetTeleportPosition | Assets/GameManager.cs:12-15 | the player's slot then reads back the given position; the other slot is unchanged |
| Registry.GameManager.GetTeleportPosition | Assets/GameManager.cs:17-20 | reads the stored slot of that player, the value SetTeleportPosition last wrote there |
| Registry.GameManager.GetAcorns | Assets/GameManager.cs:49-52 | index 0 reads player one's count, every other index reads player two's |
| Registry.GameManager.SetAcorns | Assets/GameManager.cs:54-58 | the count reads back the new amount; that player's lists and the whole other player are unchanged; the invariant is kept |
| Registry.GameManager.IsPurchased | Assets/GameManager.cs:61-66 | true iff the id is in that player's purchase list |
| Registry.GameManager.AddPurchase | Assets/GameManager.cs:68-73 | idempotent: appends the id only when it is absent; touches nothing else; keeps the invariant |
| Registry.GameManager.IsEquipped | Assets/GameManager.cs:84-85 | true iff the id is in that player's equipped list |
| Registry.GameManager.EquippedCount | Assets/GameManager.cs:88-89 | the length of the equipped list, at most 3 under the invariant |
| Registry.GameManager.Equip | Assets/GameManager.cs:92-101 | appends iff not equipped, purchased and fewer than 3 equipped; otherwise no change; the other player is untouched; keeps the invariant |
| Registry.GameManager.Unequip | Assets/GameManager.cs:128-131 | removes the first occurrence and keeps the order of the rest; afterwards the id is not equipped; keeps the invariant |
| Registry.GameManager.GetEquippedItems | Assets/GameManager.cs:134-135 | returns the equipped list as a value, so later changes cannot reach it |
| Registry.GameManager.ResetGameState | Assets/GameManager.cs:103-125 | both players' lists empty, both counts 0, fresh teleporter slots at the origin, shop counter 1 |
| GadgetSpec.DispatchMatchesGadgetIds | Assets/Items/GadgetController.cs:185-213 | the dispatch switch picks gadget g exactly for g's own equipped id; claws and wingsuit pick none |
| GadgetSpec.ReadyStaysReady | Assets/Items/GadgetController.cs:120-155 | a ready gadget's flag and timer are untouched by any number of ticks |
| GadgetSpec.ReadyOnceTimerElapsed | Assets/Items/GadgetController.cs:120-155 | a gadget with timer t becomes ready exactly when the elapsed frames add up to t; until then its timer is t minus the elapsed time |
| GadgetSpec.Set | Assets/Items/GadgetController.cs:120-155 | writing one gadget's flag and timer leaves the other six unchanged |
| GadgetSpec.Defaults | Assets/Items/GadgetController.cs:27-81 | the inspector defaults: cooldowns 2, durations 3, stun 1.5, launch speed 5, self tag Player |
| GadgetSpec.TickGadget | Assets/Items/GadgetController.cs:120-155 | one gadget's tick changes only that gadget's flag and timer and never lowers the HUD refresh count |
| GadgetSpec.TickCooldowns | Assets/Items/GadgetController.cs:120-155 | every gadget is ticked on its own; nothing but the cooldowns and the refresh count changes |
| GadgetSpec.ChangeSelection | Assets/Items/GadgetController.cs:217-222 | the selection becomes the new index and only the refresh count may change with it |
| GadgetSpec.SyncEquipCount | Assets/Items/GadgetController.cs:158-164 | after a change of the equipped count the selection is back in [0, max(0, count-1)]; the count is recorded |
| GadgetSpec.CycleRoundTrip | Assets/Items/GadgetController.cs:179-182 | Q and E stay in range and undo each other |
| GadgetSpec.SlotKeys | Assets/Items/GadgetController.cs:167-178 | slot keys keep the selection in range and change nothing but the selection and the refresh count |
| GadgetSpec.CycleKeys | Assets/Items/GadgetController.cs:179-182 | Q/E keep the selection in range and change nothing but the selection and the refresh count |
| GadgetSpec.SelectionKeys | Assets/Items/GadgetController.cs:167-182 | the slot keys then Q then E keep the selection in range |
| GadgetSpec.StunTargetsExactly | Assets/Items/GadgetController.cs:296-307 | the swipe stuns a behaviour iff it belongs to a hit object not tagged selfTag |
| GadgetSpec.StunWaits | Assets/Items/GadgetController.cs:372-377 | one re-enable wait per stunned behaviour, in order |
| GadgetSpec.TryUse | Assets/Items/GadgetController.cs:224-344 | no use changes the selection or the recorded equipped count |
| GadgetSpec.Dispatch | Assets/Items/GadgetController.cs:185-213 | the dispatch leaves the selection and the recorded equipped count unchanged |
| GadgetSpec.Update | Assets/Items/GadgetController.cs:117-215 | a whole frame keeps the selection within [0, max(0, count-1)] and records the equipped count, so the dispatch's list index is in bounds |
| GadgetSpec.ResumeEventsEffect | Assets/Items/GadgetController.cs:346-377 | the frame's continuations end the cloak and shield that are due and re-enable the stunned behaviours that are due, whatever their order |
| GadgetSpec.DispatchOnlyUsesReadyGadget | Assets/Items/GadgetController.cs:185-213 | the use key changes something only when the selected item is a gadget id whose flag is set |
| GadgetSpec.UseNeedsEquippedAndReady | Assets/Items/GadgetController.cs:227-337 | every `TryUse*` is a no-op unless its id is equipped and its flag is set |
| GadgetSpec.InstantUseStartsCooldown | Assets/Items/GadgetController.cs:224-344 | a successful teleporter, acorn, launcher, swipe or boots use clears the flag, sets that gadget's own cooldown and refreshes the HUD once; boots charge the player; the decoy carries the placer's index; the marker moves to position + offset |
| GadgetSpec.AmmoFollowsFacing | Assets/Items/GadgetController.cs:256-286 | the ammo flies along x in the sign of the controller's scale (right for 0), at launch speed when it has a rigidbody |
| GadgetSpec.TeleporterIgnoresGrounding | Assets/Items/GadgetController.cs:224-239 | with a controller the marker is placed whether or not the player is grounded; without one nothing changes |
| GadgetSpec.CloakAndShieldActivation | Assets/Items/GadgetController.cs:314-370 | activation clears the flag, raises the status and starts one wait of the invisibility duration, for the shield too |
| GadgetSpec.MissingControllerEffects | Assets/Items/GadgetController.cs:241-370 | without a player controller the boots only lose their flag, the cloak and shield lose their flag and refresh the HUD, and the acorn does nothing |
| GadgetSpec.SwipeStunsHitObjects | Assets/Items/GadgetController.cs:289-312 | a behaviour ends up disabled, with one stun-duration wait pending, iff the swipe hit its object and the object is not tagged selfTag |
| GadgetSpec.RoutineEndClearsStatus | Assets/Items/GadgetController.cs:346-370 | when a cloak or shield wait ends, the status is cleared and the timer set to the cooldown; the flag is untouched |
| GadgetSpec.StunEndReenables | Assets/Items/GadgetController.cs:372-377 | a disabled behaviour is re-enabled in a frame iff one of its stun waits is due |
| GadgetSpec.CloakReadyWhileStillInvisible | Assets/Items/GadgetController.cs:346-357 | the frame after activation the cloak is ready again while the player is still invisible, whenever its stale timer is at most that frame's time (the timer ticks at lines 135-139) |
| GadgetSpec.ShieldReadyWhileStillShielded | Assets/Items/GadgetController.cs:359-370 | the same for the shield, which waits the invisibility duration (the timer ticks at lines 140-144) |
| Gadgets.GadgetController2D.constructor | Assets/Items/GadgetController.cs:84-115 | every gadget ready, selection 0, no marker, shield hidden, nothing pending |
| Gadgets.GadgetController2D.TickCooldown | Assets/Items/GadgetController.cs:120-155 | performs `GadgetSpec.TickGadget` |
| Gadgets.GadgetController2D.TickCooldowns | Assets/Items/GadgetController.cs:120-155 | performs `GadgetSpec.TickCooldowns` |
| Gadgets.GadgetController2D.ChangeSelection | Assets/Items/GadgetController.cs:217-222 | performs `GadgetSpec.ChangeSelection`; no HUD refresh when the index is already selected |
| Gadgets.GadgetController2D.SyncSelection | Assets/Items/GadgetController.cs:158-164 | performs `GadgetSpec.SyncEquipCount` |
| Gadgets.GadgetController2D.HandleSelectionKeys | Assets/Items/GadgetController.cs:167-182 | performs `GadgetSpec.SelectionKeys` |
| Gadgets.GadgetController2D.HandleSlotKeys | Assets/Items/GadgetController.cs:167-178 | performs `GadgetSpec.SlotKeys` |
| Gadgets.GadgetController2D.HandleCycleKeys | Assets/Items/GadgetController.cs:179-182 | performs `GadgetSpec.CycleKeys` |
| Gadgets.GadgetController2D.Update | Assets/Items/GadgetController.cs:117-215 | performs `GadgetSpec.Update` on the player's equipped list; keeps the selection invariant; never moves the player's body |
| Gadgets.GadgetController2D.UseSelected | Assets/Items/GadgetController.cs:185-213 | performs `GadgetSpec.Dispatch` |
| Gadgets.GadgetController2D.TryUseTeleporter | Assets/Items/GadgetController.cs:224-239 | performs the teleporter case of `GadgetSpec.TryUse`; when it fires, the marker is at the player's position + offset |
| Gadgets.GadgetController2D.TryUseAcorn | Assets/Items/GadgetController.cs:241-254 | performs the acorn case of `GadgetSpec.TryUse` |
| Gadgets.GadgetController2D.TryUseLauncher | Assets/Items/GadgetController.cs:256-286 | performs the launcher case of `GadgetSpec.TryUse` |
| Gadgets.GadgetController2D.StunComponent | Assets/Items/GadgetController.cs:372-377 | disables the behaviour and leaves one re-enable wait of the given duration pending |
| Gadgets.GadgetController2D.StunHit | Assets/Items/GadgetController.cs:296-307 | one hit object: skipped if tagged selfTag, else each of its stunnable components is stunned |
| Gadgets.GadgetController2D.StunAll | Assets/Items/GadgetController.cs:296-307 | the loop over the hits disables exactly `StunTargets` and queues their waits in order |
| Gadgets.GadgetController2D.TryUseSwipe | Assets/Items/GadgetController.cs:289-312 | performs the swipe case of `GadgetSpec.TryUse` |
| Gadgets.GadgetController2D.BeginInvisibility | Assets/Items/GadgetController.cs:346-351 | clears the cloak flag; with a controller, makes the player invisible and waits the invisibility duration |
| Gadgets.GadgetController2D.BeginShield | Assets/Items/GadgetController.cs:359-365 | clears the shield flag; with a controller, raises the shield and waits the invisibility duration |
| Gadgets.GadgetController2D.TryUseInvisibility | Assets/Items/GadgetController.cs:314-322 | performs the cloak case of `GadgetSpec.TryUse` |
| Gadgets.GadgetController2D.TryUseShield | Assets/Items/GadgetController.cs:324-332 | performs the shield case of `GadgetSpec.TryUse` |
| Gadgets.GadgetController2D.TryUseBoots | Assets/Items/GadgetController.cs:334-344 | performs the boots case of `GadgetSpec.TryUse` |
| Gadgets.GadgetController2D.RunContinuation | Assets/Items/GadgetController.cs:352-376 | runs the rest of one coroutine as `GadgetSpec.Continue` |
| Gadgets.GadgetController2D.ResumeCoroutines | Assets/Items/GadgetController.cs:346-377 | performs `GadgetSpec.Resume`: due continuations in start order, the rest count down |
| Gadgets.GadgetController2D.IsOnCooldown | Assets/Items/GadgetController.cs:379-392 | the negated flag for the seven gadget ids, false for any other id |
| Gadgets.GadgetController2D.IsTeleporterPlaced | Assets/Items/GadgetController.cs:401 | true iff a marker exists |
| Gadgets.GadgetController2D.TeleporterPosition | Assets/Items/GadgetController.cs:401-402 | the latest marker position, the origin before any placement |
| Gadgets.Markers | Assets/Items/GadgetController.cs:401-402 | one marker per controller, in order: its player index, and its marker position exactly when a marker is placed |
| Gadgets.RespawnFindsOwnMarker | Assets/PlayerController.cs:206-213 | a respawn over the controllers finds the marker of the first controller of that player that has one |
| Gadgets.RespawnAtLatestMarker | Assets/Items/GadgetController.cs:224-239 | after a teleporter use fires, a respawn that reaches this controller first lands at the player's position + placement offset + respawn offset |
| Gadgets.GadgetController2D.RefreshHUD | Assets/Items/GadgetController.cs:394-399 | counts one HUD refresh |
| Gadgets.FirstForPlayer | Assets/Items/Climber.cs:40-47 | null iff no controller in the scene has the index; otherwise one of them that has it |
| Hud.IconForID | Assets/Items/EquipmentHUD.cs:123-137 | a sprite exactly for the nine catalogue ids, picturing that item, so no two ids share a sprite |
| Hud.Dim | Assets/Items/EquipmentHUD.cs:108-113 | RGB scaled, alpha kept; factor 1 is the identity |
| Hud.ExpectedSlot | Assets/Items/EquipmentHUD.cs:81-120 | a slot is enabled iff equipped and not cooling down, then shows the item's icon; a disabled slot has no sprite and its original colour; only the enabled selected slot is dimmed; alpha always kept |
| Hud.CooldownFlags | Assets/Items/EquipmentHUD.cs:92 | per equipped item, whether the controller reports it on cooldown; none without a controller |
| Hud.EquipmentHUD.constructor | Assets/Items/EquipmentHUD.cs:36-42 | caches each slot's original colour; no controller, nothing selected |
| Hud.EquipmentHUD.Selected | Assets/Items/EquipmentHUD.cs:101 | -1 without a controller |
| Hud.EquipmentHUD.RefreshHUD | Assets/Items/EquipmentHUD.cs:75-121 | every slot ends as `ExpectedSlot` says for the player's equipped list, the cooldowns and the selection |
| Hud.EquipmentHUD.ClearSlots | Assets/Items/EquipmentHUD.cs:80-86 | every slot ends disabled, without a sprite, in its original colour |
| Hud.EquipmentHUD.FillSlots | Assets/Items/EquipmentHUD.cs:88-98 | from cleared slots, the slot of each equipped item not cooling down is enabled with that item's icon, and every other slot stays cleared |
| Hud.EquipmentHUD.TintSlots | Assets/Items/EquipmentHUD.cs:100-120 | the enabled slot at the selected index is dimmed, and every other slot keeps its original colour |
| Hud.EquipmentHUD.Start | Assets/Items/EquipmentHUD.cs:44-47 | the first refresh |
| Hud.EquipmentHUD.Update | Assets/Items/EquipmentHUD.cs:49-60 | refreshes and records the selection iff the controller's selection differs from the last one seen; otherwise nothing changes |
| Hud.EquipmentHUD.RefreshForPlayer | Assets/Items/EquipmentHUD.cs:65-73 | switches player, takes that player's first controller, and refreshes |
| Shop.CatalogueCoversKnownItems | Assets/ShopScene/ShopController.cs:61-117 | the nine buttons offer exactly the nine known ids, each at a positive cost |
| Shop.CatalogueIdsDistinct | Assets/ShopScene/ShopController.cs:61-117 | no two buttons offer the same id |
| Shop.EquipButtonFor | Assets/ShopScene/ShopController.cs:246-261 | hidden iff not purchased; "Unequip" iff equipped, "Equip" otherwise; interactable iff equipped or fewer than 3 equipped |
| Shop.TintedItems | Assets/ShopScene/ShopController.cs:155-193 | an item button is tinted iff the player has bought it |
| Shop.ShopController.constructor | Assets/ShopScene/ShopController.cs:53-135 | player one selected, panel closed, labels, tints and buttons refreshed; Awake's own OnEnable call and the engine's make two HUD refreshes for player 0 |
| Shop.ShopController.OnEnable | Assets/ShopScene/ShopController.cs:127-135 | labels, tints and both buttons match the registry for the current player, the panel is closed, and one HUD refresh for that player is added |
| Shop.ShopController.RefreshAll | Assets/ShopScene/ShopController.cs:129-132 | labels, tints, purchase and equip buttons all match the registry |
| Shop.ShopController.UpdateAllCurrencyDisplay | Assets/ShopScene/ShopController.cs:148-153 | both labels show the registry's counts |
| Shop.ShopController.UpdateAllItemButtons | Assets/ShopScene/ShopController.cs:155-193 | the tints are `TintedItems` of the current player's purchases |
| Shop.ShopController.RefreshPurchaseButton | Assets/ShopScene/ShopController.cs:215-221 | interactable iff not purchased and the player can afford the cost, the same guard as the purchase |
| Shop.ShopController.RefreshEquipButton | Assets/ShopScene/ShopController.cs:246-261 | the button is `EquipButtonFor` the current item |
| Shop.ShopController.SwitchPlayer | Assets/ShopScene/ShopController.cs:137-146 | the player is switched, the panel closes, everything is refreshed for that player |
| Shop.ShopController.ShowItem | Assets/ShopScene/ShopController.cs:195-213 | the item already open only closes the panel; otherwise the id and cost are set and the panel opens |
| Shop.ShopController.ClickItemButton | Assets/ShopScene/ShopController.cs:61-117 | button k shows catalogue entry k |
| Shop.ShopController.HandlePurchase | Assets/ShopScene/ShopController.cs:223-244 | without the guard nothing is bought; with it the item is recorded and the cost deducted, so acorns never go negative, and the labels, tints and both buttons again show the registry; without it the display is unchanged; the other player is untouched |
| Shop.ShopController.HandleEquip | Assets/ShopScene/ShopController.cs:263-273 | unequips an equipped item, else asks for a guarded equip; purchases and acorns unchanged |
| Player.HorizontalInput | Assets/PlayerController.cs:95-120 | the left key wins over the right key, 0 if neither is held |
| Player.FacingScale | Assets/PlayerController.cs:143-156 | keeps the magnitude of the x scale; positive input faces right, negative left, zero keeps it |
| Player.FirstPlaced | Assets/PlayerController.cs:206-213 | none iff no found controller of that player has a marker; otherwise the marker of the first such controller in scene order |
| Player.RespawnTarget | Assets/PlayerController.cs:201-221 | the placed teleporter plus offset if there is one, else the spawn point plus offset |
| Player.ImpulsesSnoc | Assets/PlayerController.cs:100-137 | the jump impulses of a run extended by one frame are those of the run followed by that frame's, started from the charge the run leaves |
| Player.BoostedImpulsesCounted | Assets/PlayerController.cs:100-137 | over any run of frames the boosted force is applied exactly as often as `BoostedJumps` counts |
| Player.BootsChargeUsedByExactlyOneJump | Assets/PlayerController.cs:100-137 | over any run of frames a charged player makes exactly one boosted jump if it jumps at all and none otherwise; an uncharged player makes none |
| Player.PlayerController.constructor | Assets/PlayerController.cs:13-87 | spawn point is the start position; jump forces 16 and 8; offset (0, 0.5, 0) |
| Player.PlayerController.Update | Assets/PlayerController.cs:89-157 | reads the input, jumps only on key-down while grounded (boosted and clearing the boots when charged), sets facing; the charge and the impulses follow `ChargeAfter` and `Impulses` for that frame; position and spawn untouched |
| Player.PlayerController.GetVerticalInput | Assets/PlayerController.cs:186-199 | the up key wins over the down key, 0 if neither is held |
| Player.PlayerController.Respawn | Assets/PlayerController.cs:201-222 | scans the found controllers in order and moves to the first marker of this player plus offset, else to the spawn point plus offset (`RespawnTarget` of `FirstPlaced`); zeroes the velocity; status flags kept |
| Player.PlayerController.SetSpawnpoint | Assets/PlayerController.cs:253-256 | replaces the fallback spawn point and nothing else |
| Player.PlayerController.HazardContact | Assets/NPCs/EnemyContact.cs:20-31 | an enemy contact respawns the player iff not invisible, at the first marker of this player among the found controllers, else at the spawn point |
| Player.PlayerController.HasWingsuitSelected | Assets/PlayerController.cs:229-242 | true iff there is a controller whose selection is in range of the equipped list and names the wingsuit |
| Climbing.ClimbDirection | Assets/Items/Climber.cs:81-83 | -1 iff down is held, 1 iff only up is held, 0 iff neither |
| Climbing.UpdateStep | Assets/Items/Climber.cs:50-98 | claws deselected: any climb ends and gravity is restored; latch only in the zone on up-key-down; while climbing gravity 0 and speed = direction × climbSpeed; a climb only inside a zone |
| Climbing.EnterStep | Assets/Items/Climber.cs:100-104 | a climb zone registers only while the claws are selected |
| Climbing.ExitStep | Assets/Items/Climber.cs:106-113 | leaving a climb zone clears zone and climb; gravity is left to the next Update |
| Climbing.StepsKeepClimbInZone | Assets/Items/Climber.cs:50-113 | every update, enter and exit keeps "climbing implies in a zone" |
| Climbing.ExitThenUpdateRestoresGravity | Assets/Items/Climber.cs:93-113 | leaving mid-climb then updating with claws selected restores gravity |
| Climbing.ExitThenDeselectKeepsGravitySuspended | Assets/Items/Climber.cs:53-113 | leaving mid-climb then deselecting the claws leaves gravity at 0 |
| Climbing.Climber.constructor | Assets/Items/Climber.cs:34-48 | remembers gravity and the first gadget controller of this player |
| Climbing.Climber.HasClawsSelected | Assets/Items/Climber.cs:116-129 | true iff there is a controller whose selection is in range and names the climber claws |
| Climbing.Climber.Update | Assets/Items/Climber.cs:50-98 | performs `UpdateStep` |
| Climbing.Climber.OnTriggerEnter2D | Assets/Items/Climber.cs:100-104 | performs `EnterStep` |
| Climbing.Climber.OnTriggerExit2D | Assets/Items/Climber.cs:106-113 | performs `ExitStep` |
| Decoys.DummyAcorn.constructor | Assets/Items/DummyAcorn.cs:9-21 | tagged with the placer; stun 3 s; nothing pending |
| Decoys.DummyAcorn.OnTriggerEnter2D | Assets/Items/DummyAcorn.cs:23-34 | only a player other than the placer is stunned; colliders without a controller are ignored |
| Decoys.DummyAcorn.StartStun | Assets/Items/DummyAcorn.cs:36-58 | disables the player's controls, zeroes its motion, waits the stun duration |
| Decoys.DummyAcorn.ResumeCoroutines | Assets/Items/DummyAcorn.cs:58-62 | each due stun re-enables its player and destroys the acorn |
| Decoys.StunReleasedAfterDuration | Assets/Items/DummyAcorn.cs:36-62 | the release fires exactly once, once the frames add up to the stun duration |
| Ammo.OutcomeFor | Assets/Items/AcornAmmo.cs:19-50 | NPC tag stuns, player tags hit, Air, Acorn and Climb pass through, everything else destroys |
| Ammo.NpcStuns | Assets/Items/AcornAmmo.cs:22-34 | one stun per present patrol or platform, the patrol first |
| Ammo.AcornAmmo.constructor | Assets/Items/AcornAmmo.cs:9-17 | stun 3 s, nothing started |
| Ammo.AcornAmmo.OnTriggerEnter2D | Assets/Items/AcornAmmo.cs:19-50 | destroyed iff not passing through; NPC hits start their stuns; a player hit respawns the player at the first marker of its own among the found controllers, else at its spawn point, with no shield, cloak or owner check |
| Collecting.AcornsInAppend | Assets/AcornCollector.cs:26-36 | counting distributes over runs of contacts and never exceeds them |
| Collecting.AcornCollector.constructor | Assets/AcornCollector.cs:14 | the count starts at 0 |
| Collecting.AcornCollector.Start | Assets/AcornCollector.cs:16-24 | shows the count when a text is assigned |
| Collecting.AcornCollector.OnTriggerEnter2D | Assets/AcornCollector.cs:26-36 | an Acorn tag adds exactly 1 and hides the pickup; other tags change nothing |
| Collecting.AcornCollector.GetAcornCount | Assets/AcornCollector.cs:46-49 | the number of Acorn contacts so far |
| Scenes.SceneName | Assets/SceneChanger.cs:83-151 | every loader names a non-empty scene |
| Scenes.Track | Assets/SceneChanger.cs:89-151 | each loader but the start screen plays a track below the shop's |
| Scenes.TracksIdentifyLoaders | Assets/SceneChanger.cs:89-151 | no two loaders play the same track |
| Scenes.MapAfterShop | Assets/SceneChanger.cs:153-176 | 0 Tutorial, 1 Forest, 2 Pavilion, 3 Factory, anything else Office, each iff |
| Scenes.RouteFromCounter | Assets/SceneChanger.cs:103-182 | over any run of shop visits, the i-th visit loads the level named by the counter raised i + 1 times |
| Scenes.ShopVisitsLeadThroughLevels | Assets/SceneChanger.cs:103-182 | over any run of visits from a fresh counter the levels are Forest, Pavilion, Factory, then Office for good; after a restart they are Pavilion, Factory, then Office, never the Forest |
| Scenes.LoadEvents | Assets/SceneChanger.cs:83-151 | each loader transitions to its scene and plays exactly its own track |
| Scenes.SceneChanger.constructor | Assets/SceneChanger.cs:25-35 | no scene named, nothing requested |
| Scenes.SceneChanger.LoadScene | Assets/SceneChanger.cs:73-81 | refuses an empty scene name |
| Scenes.SceneChanger.Load | Assets/SceneChanger.cs:83-151 | names the scene and requests exactly `LoadEvents` |
| Scenes.SceneChanger.LoadShop | Assets/SceneChanger.cs:103-116 | shop music then the shop scene; the counter goes up by one; unless it is now 1 the collectors' counts are banked |
| Scenes.SceneChanger.LoadMapAfterShop | Assets/SceneChanger.cs:153-176 | loads `MapAfterShop` of the counter |
| Scenes.SceneChanger.Restart | Assets/SceneChanger.cs:178-182 | loads the start screen and resets the registry, counter 1 |
| Pressure.NextCount | Assets/FactoryScene/PressureButton.cs:21-40 | an entry adds one, an exit removes one but never below zero |
| Pressure.CountAfter | Assets/FactoryScene/PressureButton.cs:21-40 | the count is never negative |
| Pressure.CountCoversBoxesOnButton | Assets/FactoryScene/PressureButton.cs:21-40 | the count is at least the surplus of entries over exits |
| Pressure.PressureButton.constructor | Assets/FactoryScene/PressureButton.cs:13-19 | count 0, nothing written |
| Pressure.PressureButton.SetStates | Assets/FactoryScene/PressureButton.cs:42-50 | pressed turns the primary off and the secondary on (the code, not its comment) |
| Pressure.PressureButton.OnTriggerEnter2D | Assets/FactoryScene/PressureButton.cs:21-30 | only Box tags count; SetStates(true) runs exactly on 0 to 1 |
| Pressure.PressureButton.OnTriggerExit2D | Assets/FactoryScene/PressureButton.cs:32-40 | only Box tags count; SetStates(false) runs whenever the count is 0 after it |
| Puzzle.PuzzleButton.constructor | Assets/OfficeScene/PuzzleButton.cs:20-31 | not pressed, drawn dimmed |
| Puzzle.PuzzleButton.CheckPressed | Assets/OfficeScene/PuzzleButton.cs:33-55 | pressed iff a box covers it |
| Puzzle.PuzzleButton.SetActiveVisual | Assets/OfficeScene/PuzzleButton.cs:58-62 | highlight as requested |
| Puzzle.FirstSet | Assets/OfficeScene/PuzzleLever.cs:33 | the first three buttons |
| Puzzle.SecondSet | Assets/OfficeScene/PuzzleLever.cs:34 | the three buttons after the first |
| Puzzle.SetsOfFourShareTheMiddle | Assets/OfficeScene/PuzzleLever.cs:33-34 | with four buttons the sets are 0..2 and 1..3 |
| Puzzle.PuzzleTrigger.constructor | Assets/OfficeScene/PuzzleLever.cs:23-35 | caches the buttons; no set shown yet |
| Puzzle.PuzzleTrigger.ShowVisualSet | Assets/OfficeScene/PuzzleLever.cs:48-56 | highlights exactly the three buttons from the start index |
| Puzzle.PuzzleTrigger.OnTriggerEnter2D | Assets/OfficeScene/PuzzleLever.cs:37-43 | Player shows set 0, PlayerTwo set 1, other tags nothing |
| Puzzle.PuzzleTrigger.UpdateSuccessState | Assets/OfficeScene/PuzzleLever.cs:72-82 | the success object is active iff every button of the set is pressed; a missing one is skipped |
| Puzzle.PuzzleTrigger.Update | Assets/OfficeScene/PuzzleLever.cs:58-67 | every button is refreshed before either set is judged |
| Puzzle.PuzzleTrigger.SetsFollowCoverage | Assets/OfficeScene/PuzzleLever.cs:58-82 | each set is all pressed iff its range is all covered |
| Lasers.NextPhase | Assets/OfficeScene/LazerToggleController.cs:56 | the next phase stays in range |
| Lasers.Cycle | Assets/OfficeScene/LazerToggleController.cs:45-59 | the phase of step k is in range |
| Lasers.ModIsNextPhase | Assets/OfficeScene/LazerToggleController.cs:56 | `(p + 1) % n` is the wrap-round step |
| Lasers.CycleCountsUp | Assets/OfficeScene/LazerToggleController.cs:45-59 | the first n steps apply phases 0 to n-1 in order |
| Lasers.CycleRepeats | Assets/OfficeScene/LazerToggleController.cs:45-59 | the phases repeat with period n |
| Lasers.LaserToggleController.constructor | Assets/OfficeScene/LazerToggleController.cs:29 | phase 0, nothing applied |
| Lasers.LaserToggleController.PhaseStep | Assets/OfficeScene/LazerToggleController.cs:45-56 | a laser is active iff it is not in the current phase's list; the phase advances modulo the count |
| Lasers.LaserToggleController.Start | Assets/OfficeScene/LazerToggleController.cs:31-41 | no lasers or no phases disables the component; otherwise the first pass runs and waits |
| Lasers.LaserToggleController.ResumeCoroutines | Assets/OfficeScene/LazerToggleController.cs:58 | when the wait is due the next pass runs and waits again |
| Hooks.HookController2D.constructor | Assets/FactoryScene/HookController.cs:17-36 | relatch delay 0.3, stun 0.5, free and able to latch |
| Hooks.HookController2D.OnTriggerEnter2D | Assets/FactoryScene/HookController.cs:55-64 | latches only when able, free, and the tag is a player's |
| Hooks.HookController2D.LatchPlayer | Assets/FactoryScene/HookController.cs:66-79 | cannot latch again, latched, tag recorded, joint attached |
| Hooks.HookController2D.ReleasePlayer | Assets/FactoryScene/HookController.cs:81-110 | a no-op when free; otherwise frees the player, starts the relatch delay and stuns the player's controls |
| Hooks.HookController2D.Update | Assets/FactoryScene/HookController.cs:43-53 | released iff latched and the latched player's own key is pressed; a release detaches the joint, starts the relatch wait and, when the player has a controller, disables it and starts its stun wait; otherwise nothing changes |
| Hooks.HookController2D.Run | Assets/FactoryScene/HookController.cs:112-123 | the relatch continuation restores latching; the stun continuation re-enables its player |
| Hooks.HookController2D.ResumeCoroutines | Assets/FactoryScene/HookController.cs:112-123 | the due continuations restore latching and re-enable their players; the rest count down |
| Hooks.HookController2D.RunAll | Assets/FactoryScene/HookController.cs:112-123 | running the due continuations in order makes the hook able to latch if a relatch is among them, and re-enables exactly their players |
| Hooks.RelatchOnlyAfterDelay | Assets/FactoryScene/HookController.cs:119-123 | latching comes back exactly once the frames add up to the delay |
| Elevators.ElevatorController.constructor | Assets/FactoryScene/ElevatorController.cs:25-40 | disabled iff a UI reference is missing; otherwise the button and the joke start hidden; the invariant holds either way |
| Elevators.ElevatorController.OnTriggerEnter2D | Assets/FactoryScene/ElevatorController.cs:42-50 | a player becomes the rider, the joke hides and the button shows; a missing joke text stops it right after the rider is set, a missing button before the button shows |
| Elevators.ElevatorController.OnTriggerExit2D | Assets/FactoryScene/ElevatorController.cs:52-60 | only the rider leaving hides the UI and clears the rider; a missing reference stops it before the rider is cleared |
| Elevators.ElevatorController.OnCallButtonClicked | Assets/FactoryScene/ElevatorController.cs:62-73 | no rider: nothing; else the rider moves to the destination, the button hides and the rider is cleared; the joke text is never read, and a missing button stops it after the move |
| Elevators.ElevatorController.OnCallButtonClickedTroll | Assets/FactoryScene/ElevatorController.cs:75-90 | the same, and the joke is shown; a missing joke text stops it after the button hides, keeping the rider and showing no joke |
| Typing.Begin | Assets/TutorialScene/NPCDialogue.cs:136-144 | an empty line completes at once; otherwise the first character is typed |
| Typing.Tick | Assets/TutorialScene/NPCDialogue.cs:140-146 | when the wait is over the next character is typed, or after the last one the line completes |
| Typing.OneCharacterPerFrame | Assets/TutorialScene/NPCDialogue.cs:140-144 | with frames no shorter than the delay, each frame types one character and the frame after the last completes |
| Tutorial.NPCDialogue.constructor | Assets/TutorialScene/NPCDialogue.cs:44-76 | a missing reference disables it; otherwise the panel opens, the acorns hide and line 0 types |
| Tutorial.NPCDialogue.TypeLine | Assets/TutorialScene/NPCDialogue.cs:134-146 | the text clears and the first character is typed; an empty line finishes at once |
| Tutorial.NPCDialogue.FinishLine | Assets/TutorialScene/NPCDialogue.cs:146-157 | the button shows only on lines 0 and 1 and the last; line 4 brings out both acorns |
| Tutorial.NPCDialogue.ResumeCoroutines | Assets/TutorialScene/NPCDialogue.cs:140-146 | the text is always a prefix of the line, and the whole line once typing ends |
| Tutorial.NPCDialogue.Advance | Assets/TutorialScene/NPCDialogue.cs:160-168 | the index goes up; the next line types, or the panel hides after the last |
| Tutorial.NPCDialogue.Update | Assets/TutorialScene/NPCDialogue.cs:78-178 | nothing while typing; step 2 advances once both have moved, step 3 once both have jumped, with the flags reset; step 4 once both acorns are gone; an advance leaves the next line started or the panel closed, otherwise the line, typing state and panel are kept; the other steps' flags are kept, and the acorns are touched only by the advance to line 4 |
| Tutorial.NPCDialogue.MoveStep | Assets/TutorialScene/NPCDialogue.cs:83-96 | each player's move key is remembered; once both have moved the flags reset and the dialogue advances, otherwise the line, panel and acorns are kept |
| Tutorial.NPCDialogue.JumpStep | Assets/TutorialScene/NPCDialogue.cs:98-110 | each player's jump key is remembered; once both have jumped the flags reset and the dialogue advances, otherwise the line, panel and acorns are kept |
| Tutorial.NPCDialogue.AcornStep | Assets/TutorialScene/NPCDialogue.cs:112-116 | advances iff both acorns are present and picked up; otherwise the line, panel and acorns are kept |
| Tutorial.NPCDialogue.OnContinueClicked | Assets/TutorialScene/NPCDialogue.cs:119-132 | ignored while typing; the last line loads the shop; otherwise advances |
| ShopTalk.ShopDialogue.constructor | Assets/ShopScene/ShopDialogue.cs:28-52 | runs only when the shop counter is 1; a missing UI disables it |
| ShopTalk.ShopDialogue.TypeLine | Assets/ShopScene/ShopDialogue.cs:69-83 | the text clears and the first character is typed; an empty line finishes at once with the button |
| ShopTalk.ShopDialogue.ResumeCoroutines | Assets/ShopScene/ShopDialogue.cs:74-82 | the text is a prefix of the line, and the whole line with the button once typing ends |
| ShopTalk.ShopDialogue.Advance | Assets/ShopScene/ShopDialogue.cs:85-93 | the index goes up; the next line types, or the panel hides after the last |
| ShopTalk.ShopDialogue.OnContinueClicked | Assets/ShopScene/ShopDialogue.cs:54-67 | ignored while typing; the last line closes the panel; otherwise advances |
| Slideshow.BackstoryManager.constructor | Assets/BackstoryScene/BackstoryManager.cs:16-28 | only slide 0 is active; with no slides nothing changes |
| Slideshow.BackstoryManager.AdvanceSlide | Assets/BackstoryScene/BackstoryManager.cs:36-54 | the next slide is the only one shown; after the last the tutorial loads; past the end nothing changes |
| Slideshow.BackstoryManager.Update | Assets/BackstoryScene/BackstoryManager.cs:30-34 | the advance key moves the slideshow on; nothing else does |
| Countdown.Ceil | Assets/CountdownTimer.cs:68 | the least whole number not below x |
| Countdown.Tick | Assets/CountdownTimer.cs:39 | never negative; zero iff the frame reaches the end; otherwise decreased by dt |
| Countdown.LeftIsClampedDifference | Assets/CountdownTimer.cs:35-47 | after any frames the time left is the time minus the frames, clamped at 0; zero iff the frames add up to it |
| Countdown.TwoColorCountdown.constructor | Assets/CountdownTimer.cs:24-33 | the first run starts at the full duration |
| Countdown.TwoColorCountdown.UpdateUI | Assets/CountdownTimer.cs:61-77 | the text shows the seconds left rounded up; the rings the remaining and elapsed fractions |
| Countdown.TwoColorCountdown.StartTimer | Assets/CountdownTimer.cs:49-54 | a new run from the full duration |
| Countdown.TwoColorCountdown.StopTimer | Assets/CountdownTimer.cs:56-59 | stops without the end event |
| Countdown.TwoColorCountdown.Update | Assets/CountdownTimer.cs:35-47 | nothing when stopped; else the clamped tick; at zero the run stops and its end event fires once |

## Left out

- Floating point: times, forces, positions and colours are exact reals, so the model does not capture `float` rounding.
- Physics and motion are not modelled: `FixedUpdate`, ground checks, velocities applied by the physics engine, the hook's release impulse, the launched ammo's flight, and the wingsuit's air control.
- The engine's frame order is not modelled. Each component's `ResumeCoroutines(dt)` is a separate step, so the order of coroutines against `Update` in one frame is left to the caller.
- Animator triggers, `Debug.Log` messages, audio fades and the scene transition's mask animation are not modelled. Scene loading is a list of requested events.
- UI widgets (texts, images, buttons) are reduced to the values the code writes. Missing inspector references are reduced to flags passed to the constructors.
- The shop description panel's title and description strings are not modelled, nor the purchase callback, which only logs.
- Unity's `FindObjectsOfType` is a sequence of candidates passed in. Its order is unspecified in the engine, so "first match" means first in that sequence.
- Slideshow.BackstoryManager.constructor: assumes the slides are distinct objects.
- Puzzle.PuzzleTrigger.constructor: assumes the buttons are distinct objects.
- Elevators.ElevatorController.constructor: assumes the call button and the joke text are different objects.
- Gadgets.GadgetController2D.constructor: assumes Awake finds both the SpriteRenderer and the ShieldBehavior child (Assets/Items/GadgetController.cs:94-113). The source tolerates either being missing, and then the cloak or shield coroutine throws right after setting the player's status (lines 350 and 363), so without a renderer the player would stay invisible for good. The cloak's alpha tint on the renderer is not modelled either.
- Pressure.PressureButton.SetStates: requires the primary object to be assigned; the source would throw there before writing anything.
- Pressure.PressureButton.OnTriggerEnter2D: requires the primary object, for the same reason, so a button without one is not modelled.
- Pressure.PressureButton.OnTriggerExit2D: requires the primary object, as above.
- Decoys.DummyAcorn.OnTriggerEnter2D: requires the acorn not yet destroyed, because a destroyed object receives no more events.
- Decoys.DummyAcorn.ResumeCoroutines: requires the acorn not yet destroyed, as above.
- Ammo.AcornAmmo.OnTriggerEnter2D: requires the ammo not yet destroyed, as above.
- Countdown.TwoColorCountdown.constructor: the duration is the inspector default of 30 seconds. The `onTimerEnd` listeners are a ghost log of the runs they ended.
- `isShield` is set by the shield but read by nothing in the modelled files, so no shield guard is modelled.
- Only the contact of `Assets/NPCs/EnemyContact.cs` is modelled among the hazards; the patrol and moving-platform contacts use the same invisibility check.
- Hud.EquipmentHUD.RefreshHUD: a null sprite from `IconForID` is `None`, and the HUD's own dim factor is the inspector default 0.5.
