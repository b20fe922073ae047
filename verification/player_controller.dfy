/**
 * The per-frame input, jump and facing logic of a player, the status flags the
 * gadgets write (`isBoots`, `isInvisible`, `isShield`), respawning and the
 * wingsuit query. Physics (FixedUpdate, ground detection) is outside the
 * model: `isGrounded` is whatever the last ground check found.
 *
 * The gadget controller is not imported here (it writes this class's flags,
 * and Dafny modules may not import each other); the queries that read it take
 * what they read of it as parameters: its selected index, and for a respawn
 * one `Marker` per controller found in the scene (module Gadgets builds them
 * from the controllers with `Gadgets.Markers`).
 */
module Player {
  import opened Common
  import Registry

  datatype ControlScheme = WASD | ArrowKeys

  /** Horizontal input: the left key wins over the right key, 0 if neither is held. */
  function HorizontalInput(scheme: ControlScheme, input: Input): (h: real)
    ensures h == -1.0 <==> (if scheme == WASD then A else LeftArrow) in input.held
    ensures h == 1.0 <==> (if scheme == WASD then A else LeftArrow) !in input.held
                          && (if scheme == WASD then D else RightArrow) in input.held
    ensures h == -1.0 || h == 0.0 || h == 1.0
  {
    var left, right := if scheme == WASD then A else LeftArrow, if scheme == WASD then D else RightArrow;
    if left in input.held then -1.0 else if right in input.held then 1.0 else 0.0
  }

  function JumpKey(scheme: ControlScheme): KeyCode
  {
    if scheme == WASD then W else UpArrow
  }

  /** A jump happens only on the jump key's key-down while grounded. */
  predicate Jumps(scheme: ControlScheme, input: Input, grounded: bool)
  {
    JumpKey(scheme) in input.down && grounded
  }

  function Abs(x: real): real { if x < 0.0 then -x else x }

  /**
   * Facing: the x scale becomes +|x| for positive input and -|x| for negative
   * input, and is unchanged for zero input.
   */
  function FacingScale(scaleX: real, h: real): (r: real)
    ensures Abs(r) == Abs(scaleX)
    ensures h > 0.0 ==> r >= 0.0
    ensures h < 0.0 ==> r <= 0.0
    ensures h == 0.0 ==> r == scaleX
  {
    if h > 0.0 then Abs(scaleX) else if h < 0.0 then -Abs(scaleX) else scaleX
  }

  /**
   * What a respawn reads of one gadget controller found in the scene: its
   * PlayerIndex and, when IsTeleporterPlaced, its TeleporterPosition.
   */
  datatype Marker = Marker(playerIndex: int, teleporter: Option<Vec3>)

  /** The controller belongs to player `index` and has a teleporter placed. */
  predicate Placed(m: Marker, index: int)
  {
    m.playerIndex == index && m.teleporter.Some?
  }

  /** No controller found before position k belongs to player `index` with a teleporter placed. */
  predicate FirstOf(found: seq<Marker>, k: int, index: int)
    requires k <= |found|
  {
    forall j :: 0 <= j < k ==> !Placed(found[j], index)
  }

  /** The position of the first found controller from k on that is player `index`'s with a teleporter placed, |found| if none is. */
  function PlacedFrom(found: seq<Marker>, index: int, k: nat): (j: nat)
    requires k <= |found|
    decreases |found| - k
    ensures k <= j <= |found|
    ensures forall i :: k <= i < j ==> !Placed(found[i], index)
    ensures j < |found| ==> Placed(found[j], index)
  {
    if k == |found| || Placed(found[k], index) then k else PlacedFrom(found, index, k + 1)
  }

  /**
   * The teleporter a respawn of player `index` goes to: that of the first
   * found controller of the player with one placed, or none if there is none.
   */
  function FirstPlaced(found: seq<Marker>, index: int): (r: Option<Vec3>)
    ensures r.None? <==> forall k :: 0 <= k < |found| ==> !Placed(found[k], index)
    ensures forall k :: 0 <= k < |found| && Placed(found[k], index) && FirstOf(found, k, index) ==>
                          r == found[k].teleporter
  {
    var j := PlacedFrom(found, index, 0);
    if j < |found| then found[j].teleporter else None
  }


  /** Where a respawn puts the player: the placed teleporter if any, else the spawn point, plus the offset. */
  function RespawnTarget(placedTeleporter: Option<Vec3>, spawn: Vec3, offset: Vec3): (p: Vec3)
    ensures placedTeleporter.Some? ==> p == placedTeleporter.value.Plus(offset)
    ensures placedTeleporter.None? ==> p == spawn.Plus(offset)
  {
    match placedTeleporter
    case Some(t) => t.Plus(offset)
    case None => spawn.Plus(offset)
  }

  /** One frame as the boots see it: did the jump branch run? */
  datatype JumpFrame = JumpFrame(jumped: bool)

  /** How many boosted jumps a run of frames performs, starting with the given boots charge. */
  function BoostedJumps(isBoots: bool, frames: seq<JumpFrame>): nat
  {
    if frames == [] then 0
    else if frames[0].jumped && isBoots then 1 + BoostedJumps(false, frames[1..])
    else BoostedJumps(isBoots && !frames[0].jumped, frames[1..])
  }

  /** The boots charge left after a run of frames: kept only if no frame jumped. */
  function ChargeAfter(isBoots: bool, frames: seq<JumpFrame>): bool
  {
    isBoots && forall i :: 0 <= i < |frames| ==> !frames[i].jumped
  }

  /**
   * The vertical impulses a run of frames applies: one per jump, the boosted
   * force while the boots are charged and the normal force otherwise.
   */
  function Impulses(isBoots: bool, frames: seq<JumpFrame>, force: real, boosted: real): seq<real>
    decreases |frames|
  {
    if frames == [] then []
    else if frames[0].jumped then [if isBoots then boosted else force] + Impulses(false, frames[1..], force, boosted)
    else Impulses(isBoots, frames[1..], force, boosted)
  }

  /**
   * Runs of frames compose: the impulses of a run followed by one more frame
   * are those of the run, then that frame's from the charge the run left. So
   * a run of `PlayerController.Update` calls appends `Impulses` of the run.
   */
  lemma {:induction false} ImpulsesSnoc(isBoots: bool, frames: seq<JumpFrame>, f: JumpFrame, force: real, boosted: real)
    ensures Impulses(isBoots, frames + [f], force, boosted)
            == Impulses(isBoots, frames, force, boosted) + Impulses(ChargeAfter(isBoots, frames), [f], force, boosted)
    ensures ChargeAfter(isBoots, frames + [f]) == ChargeAfter(ChargeAfter(isBoots, frames), [f])
    decreases |frames|
  {
    var v := frames + [f];
    if frames == [] {
      assert v == [f];
    } else {
      assert v[0] == frames[0] && v[1..] == frames[1..] + [f];
      var b := if frames[0].jumped then false else isBoots;
      ImpulsesSnoc(b, frames[1..], f, force, boosted);
      assert ChargeAfter(isBoots, frames) == ChargeAfter(b, frames[1..]) by {
        if !frames[0].jumped {
          assert forall i :: 1 <= i < |frames| ==> frames[i] == frames[1..][i - 1];
        }
      }
      assert ChargeAfter(isBoots, v) == ChargeAfter(b, v[1..]) by {
        if !v[0].jumped {
          assert forall i :: 1 <= i < |v| ==> v[i] == v[1..][i - 1];
        }
      }
    }
  }

  /**
   * Among the impulses of a run, the boosted force occurs exactly as often as
   * `BoostedJumps` counts (the two forces being different).
   */
  lemma {:induction false} BoostedImpulsesCounted(isBoots: bool, frames: seq<JumpFrame>, force: real, boosted: real)
    requires force != boosted
    ensures multiset(Impulses(isBoots, frames, force, boosted))[boosted] == BoostedJumps(isBoots, frames)
    decreases |frames|
  {
    if frames != [] {
      if frames[0].jumped {
        BoostedImpulsesCounted(false, frames[1..], force, boosted);
        assert Impulses(isBoots, frames, force, boosted)
               == [if isBoots then boosted else force] + Impulses(false, frames[1..], force, boosted);
      } else {
        BoostedImpulsesCounted(isBoots, frames[1..], force, boosted);
      }
    }
  }

  /**
   * One boots charge is consumed by exactly one jump: a charged player makes one
   * boosted jump if any jump happens and none otherwise; an uncharged player
   * never makes one.
   */
  lemma {:induction false} BootsChargeUsedByExactlyOneJump(isBoots: bool, frames: seq<JumpFrame>)
    ensures BoostedJumps(isBoots, frames) ==
      if isBoots && exists i :: 0 <= i < |frames| && frames[i].jumped then 1 else 0
  {
    if frames != [] {
      if frames[0].jumped && isBoots {
        BootsChargeUsedByExactlyOneJump(false, frames[1..]);
      } else {
        BootsChargeUsedByExactlyOneJump(isBoots && !frames[0].jumped, frames[1..]);
        if exists i :: 0 <= i < |frames[1..]| && frames[1..][i].jumped {
          var i :| 0 <= i < |frames[1..]| && frames[1..][i].jumped;
          assert frames[i + 1].jumped;
        }
        if exists i :: 0 <= i < |frames| && frames[i].jumped {
          var i :| 0 <= i < |frames| && frames[i].jumped;
          if i > 0 {
            assert frames[1..][i - 1].jumped;
          }
        }
      }
    }
  }

  class PlayerController {
    const playerIndex: int
    const controlScheme: ControlScheme
    const jumpForce: real
    const jumpForceBoosted: real
    const offset: Vec3

    /** Last result of the ground check (FixedUpdate). */
    var isGrounded: bool
    var horizontalInput: real

    // Status flags written by the gadgets
    var isInvisible: bool
    var isShield: bool
    var isBoots: bool

    var originalSpawnPos: Vec3
    var position: Vec3
    var scaleX: real
    var velocityX: real
    var velocityY: real
    var angularVelocity: real

    /** Every vertical impulse applied by a jump, in order. */
    var jumpImpulses: seq<real>

    /** Awake: the spawn point is the starting position; inspector defaults for the forces and offset. */
    constructor (index: int, scheme: ControlScheme, start: Vec3)
      ensures playerIndex == index && controlScheme == scheme
      ensures jumpForce == 16.0 && jumpForceBoosted == 8.0 && offset == Vec3(0.0, 0.5, 0.0)
      ensures originalSpawnPos == start && position == start && scaleX == 1.0
      ensures !isGrounded && !isInvisible && !isShield && !isBoots
      ensures velocityX == 0.0 && velocityY == 0.0 && angularVelocity == 0.0 && horizontalInput == 0.0
      ensures jumpImpulses == []
    {
      playerIndex, controlScheme := index, scheme;
      jumpForce, jumpForceBoosted := 16.0, 8.0;
      offset := Vec3(0.0, 0.5, 0.0);
      isGrounded, horizontalInput := false, 0.0;
      isInvisible, isShield, isBoots := false, false, false;
      originalSpawnPos, position, scaleX := start, start, 1.0;
      velocityX, velocityY, angularVelocity := 0.0, 0.0, 0.0;
      jumpImpulses := [];
    }

    /**
     * Update: reads horizontal input, jumps on key-down while grounded (the
     * boosted force once if boots are charged, which uses the charge up), and
     * turns the sprite to face the input direction.
     */
    method Update(input: Input)
      modifies this
      ensures horizontalInput == HorizontalInput(controlScheme, input)
      ensures var jumped := Jumps(controlScheme, input, old(isGrounded));
        && isBoots == (old(isBoots) && !jumped)
        && jumpImpulses == old(jumpImpulses) +
             (if !jumped then [] else if old(isBoots) then [jumpForceBoosted] else [jumpForce])
        && velocityY == (if jumped then 0.0 else old(velocityY))
      ensures var frame := JumpFrame(Jumps(controlScheme, input, old(isGrounded)));
        && isBoots == ChargeAfter(old(isBoots), [frame])
        && jumpImpulses == old(jumpImpulses) + Impulses(old(isBoots), [frame], jumpForce, jumpForceBoosted)
      ensures scaleX == FacingScale(old(scaleX), horizontalInput)
      ensures isGrounded == old(isGrounded) && isInvisible == old(isInvisible) && isShield == old(isShield)
      ensures position == old(position) && originalSpawnPos == old(originalSpawnPos)
      ensures velocityX == old(velocityX) && angularVelocity == old(angularVelocity)
    {
      horizontalInput := 0.0;
      var left, right, jump :=
        if controlScheme == WASD then A else LeftArrow,
        if controlScheme == WASD then D else RightArrow,
        JumpKey(controlScheme);
      if left in input.held {
        horizontalInput := -1.0;
      } else if right in input.held {
        horizontalInput := 1.0;
      }
      if jump in input.down && isGrounded {
        velocityY := 0.0;
        if isBoots {
          jumpImpulses := jumpImpulses + [jumpForceBoosted];
          isBoots := false;
        } else {
          jumpImpulses := jumpImpulses + [jumpForce];
        }
      }
      assert [JumpFrame(jump in input.down && old(isGrounded))][0].jumped == (jump in input.down && old(isGrounded));
      var scale := scaleX;
      if horizontalInput > 0.0 {
        scale := Abs(scale);
      } else if horizontalInput < 0.0 {
        scale := -Abs(scale);
      }
      scaleX := scale;
    }

    /** Vertical input: the up key wins over the down key, 0 if neither is held. */
    function GetVerticalInput(input: Input): (v: real)
      ensures v == 1.0 <==> (if controlScheme == WASD then W else UpArrow) in input.held
      ensures v == -1.0 <==> (if controlScheme == WASD then W else UpArrow) !in input.held
                             && (if controlScheme == WASD then S else DownArrow) in input.held
      ensures v == -1.0 || v == 0.0 || v == 1.0
    {
      if controlScheme == WASD then
        (if W in input.held then 1.0 else if S in input.held then -1.0 else 0.0)
      else
        (if UpArrow in input.held then 1.0 else if DownArrow in input.held then -1.0 else 0.0)
    }

    /**
     * Respawn: to the first found controller of this player that has a
     * teleporter placed, else to the spawn point, plus the offset; the
     * velocity is zeroed. `found` holds the controllers the scene search
     * returns, in its order.
     */
    method Respawn(found: seq<Marker>)
      modifies this
      ensures position == RespawnTarget(FirstPlaced(found, playerIndex), old(originalSpawnPos), offset)
      ensures velocityX == 0.0 && velocityY == 0.0
      ensures originalSpawnPos == old(originalSpawnPos) && scaleX == old(scaleX)
      ensures isBoots == old(isBoots) && isInvisible == old(isInvisible) && isShield == old(isShield)
      ensures isGrounded == old(isGrounded) && horizontalInput == old(horizontalInput)
      ensures angularVelocity == old(angularVelocity) && jumpImpulses == old(jumpImpulses)
    {
      var targetPos := originalSpawnPos.Plus(offset);
      var k := 0;
      while k < |found|
        invariant 0 <= k <= |found|
        invariant FirstOf(found, k, playerIndex)
        invariant targetPos == originalSpawnPos.Plus(offset)
      {
        if found[k].playerIndex == playerIndex && found[k].teleporter.Some? {
          targetPos := found[k].teleporter.value.Plus(offset);
          break;
        }
        k := k + 1;
      }
      position := targetPos;
      velocityX, velocityY := 0.0, 0.0;
    }

    /** Replaces the fallback used by later respawns. */
    method SetSpawnpoint(newPos: Vec3)
      modifies this
      ensures originalSpawnPos == newPos
      ensures position == old(position) && scaleX == old(scaleX)
      ensures velocityX == old(velocityX) && velocityY == old(velocityY) && angularVelocity == old(angularVelocity)
      ensures isBoots == old(isBoots) && isInvisible == old(isInvisible) && isShield == old(isShield)
      ensures isGrounded == old(isGrounded) && horizontalInput == old(horizontalInput)
      ensures jumpImpulses == old(jumpImpulses)
    {
      originalSpawnPos := newPos;
    }

    /**
     * Contact with an NPC, an enemy or a moving hazard: the player respawns
     * unless invisible.
     */
    method HazardContact(found: seq<Marker>)
      modifies this
      ensures isInvisible ==> position == old(position)
      ensures !isInvisible ==> position == RespawnTarget(FirstPlaced(found, playerIndex), originalSpawnPos, offset)
      ensures originalSpawnPos == old(originalSpawnPos) && isInvisible == old(isInvisible)
      ensures isBoots == old(isBoots) && isShield == old(isShield)
    {
      if !isInvisible {
        Respawn(found);
      }
    }

    /**
     * True only when a gadget controller exists (`selected` is its selected
     * index) and the selected slot is in range and holds the wingsuit.
     */
    function HasWingsuitSelected(gm: Registry.GameManager, selected: Option<int>): (r: bool)
      reads gm
      ensures r <==> && selected.Some?
                     && 0 <= selected.value < |gm.GetEquippedList(playerIndex)|
                     && gm.GetEquippedList(playerIndex)[selected.value] == WingsuitId
    {
      if selected.None? then false
      else
        var sel := selected.value;
        if sel < 0 then false
        else
          var equipped := gm.GetEquippedList(playerIndex);
          if sel >= |equipped| then false
          else equipped[sel] == WingsuitId
    }
  }
}
