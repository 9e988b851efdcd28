/**
 * The platform game's module-level state (`player`, `inputs`, `activeLevel`,
 * `levels`) as one object, with the keyboard handlers and the 16 ms tick.
 * Drawing is left out; every coordinate is an exact real.
 */
module PlatformGame {
  import opened Wrappers
  import opened Geometry
  import opened Randomness
  import opened PlatformLevels

  const LevelCount: nat := 20
  const StatusHeight: real := 25.0
  const StatusPadding: real := 5.0
  /** The player's shape standing (10 x 10) and crouching (12 x 5). */
  const StandWidth: real := 10.0
  const StandHeight: real := 10.0
  const CrouchWidth: real := 12.0
  const CrouchHeight: real := 5.0

  datatype Jump = Jump(landingX: real, minY: real, directionUp: bool)

  datatype Player = Player(
    x: real, y: real, width: real, height: real,
    jump: Option<Jump>, dead: bool, pieces: Option<seq<Box>>)

  datatype Inputs = Inputs(up: bool, down: bool, left: bool, right: bool)

  /** The values of `KeyboardEvent.key` the handlers distinguish. */
  datatype Key = Enter | ArrowUp | ArrowDown | ArrowLeft | ArrowRight | OtherKey

  function BoxOf(p: Player): Box {
    Box(p.x, p.y, p.width, p.height)
  }

  /** `canMoveYAxis`: below the status bar by half the height, above the bottom. */
  predicate CanMoveY(y: real, height: real) {
    y >= StatusHeight + StatusPadding + height / 2.0 && y <= CanvasHeight - height
  }

  /** The jump an ArrowUp press starts: 60 to the right or left, left winning, 30 up. */
  function JumpFrom(p: Player, inputs: Inputs): (j: Jump)
    ensures j.directionUp && j.minY == p.y - MaxJumpHeight as real
    ensures inputs.left ==> j.landingX == p.x - (2 * MaxJumpHeight) as real
    ensures !inputs.left && inputs.right ==> j.landingX == p.x + (2 * MaxJumpHeight) as real
    ensures !inputs.left && !inputs.right ==> j.landingX == p.x
  {
    var dist := if inputs.left then -2 * MaxJumpHeight else if inputs.right then 2 * MaxJumpHeight else 0;
    Jump(p.x + dist as real, p.y - MaxJumpHeight as real, true)
  }

  /** The ArrowDown press edge: half the height, 1.2 times the width. */
  ghost function Crouched(p: Player): Player {
    p.(height := p.height / 2.0, width := p.width * 1.2)
  }

  /** The ArrowDown release edge: height doubled, width back, raised by half the height. */
  ghost function Stood(p: Player): Player {
    var h := p.height * 2.0;
    p.(height := h, width := p.width / 1.2, y := p.y - h / 2.0)
  }

  /** Crouching and standing up again restores the shape exactly. */
  lemma CrouchRoundTrip(p: Player)
    ensures Stood(Crouched(p)).width == p.width && Stood(Crouched(p)).height == p.height
    ensures Stood(Crouched(p)) == p.(y := p.y - p.height / 2.0)
  {
  }

  /** `initLevel`: just above and right of the first floor, alive, no jump, no debris. */
  ghost function Respawned(p: Player, first: Box): Player {
    p.(x := first.x + p.width, y := first.y - p.height - 20.0,
       jump := None, dead := false, pieces := None)
  }

  /** The horizontal step of a jump: one unit toward `target` when that stays in bounds. */
  function StepToward(x: real, target: real, canvasWidth: real, width: real): (r: real)
    ensures r == x || r == x + 1.0 || r == x - 1.0
    ensures r > x ==> x < target && CanMoveX(canvasWidth, r, width)
    ensures r < x ==> x > target && CanMoveX(canvasWidth, r, width)
    ensures r == x ==> (|| x == target
                        || (x < target && !CanMoveX(canvasWidth, x + 1.0, width))
                        || (x > target && !CanMoveX(canvasWidth, x - 1.0, width)))
  {
    if x < target && CanMoveX(canvasWidth, x + 1.0, width) then x + 1.0
    else if x > target && CanMoveX(canvasWidth, x - 1.0, width) then x - 1.0
    else x
  }

  /** Walking on a floor: right first, then left, each only when it stays in bounds. */
  function Walk(x: real, inputs: Inputs, canvasWidth: real, width: real): (r: real)
    ensures x - 1.0 <= r <= x + 1.0
    ensures !inputs.left && !inputs.right ==> r == x
    ensures inputs.right && !inputs.left ==> r == (if CanMoveX(canvasWidth, x + 1.0, width) then x + 1.0 else x)
    ensures inputs.left && !inputs.right ==> r == (if CanMoveX(canvasWidth, x - 1.0, width) then x - 1.0 else x)
    // both keys held: the left step undoes the right one where it can, so only
    // at the right wall does the player move, leftward
    ensures inputs.left && inputs.right && CanMoveX(canvasWidth, x + 1.0, width) && CanMoveX(canvasWidth, x, width) ==> r == x
    ensures inputs.left && inputs.right && CanMoveX(canvasWidth, x + 1.0, width) && !CanMoveX(canvasWidth, x, width) ==> r == x + 1.0
    ensures inputs.left && inputs.right && !CanMoveX(canvasWidth, x + 1.0, width) ==>
              r == (if CanMoveX(canvasWidth, x - 1.0, width) then x - 1.0 else x)
    ensures CanMoveX(canvasWidth, x, width) ==> CanMoveX(canvasWidth, r, width)
  {
    var stepped := if inputs.right && CanMoveX(canvasWidth, x + 1.0, width) then x + 1.0 else x;
    if inputs.left && CanMoveX(canvasWidth, stepped - 1.0, width) then stepped - 1.0 else stepped
  }

  /** The horizontal step toward the landing point while a jump is active. */
  ghost function JumpStepped(p: Player, canvasWidth: real): Player {
    if p.jump.Some? then p.(x := StepToward(p.x, p.jump.value.landingX, canvasWidth, p.width)) else p
  }

  /** The vertical step: ascend, turn at the apex, fall, or land and walk. */
  ghost function Climbed(q: Player, inputs: Inputs, floorContact: bool, canvasWidth: real): Player {
    if q.jump.Some? && q.jump.value.directionUp then
      if q.jump.value.minY < q.y && CanMoveY(q.y - 1.0, q.height) then q.(y := q.y - 1.0)
      else q.(jump := Some(q.jump.value.(directionUp := false)))
    else if !floorContact then q.(y := q.y + 1.0)
    else if inputs.down then q
    else q.(jump := None, x := Walk(q.x, inputs, canvasWidth, q.width))
  }

  /** The movement part of a tick, given whether the player touched a floor. */
  ghost function Moved(p: Player, inputs: Inputs, floorContact: bool, canvasWidth: real): Player {
    Climbed(JumpStepped(p, canvasWidth), inputs, floorContact, canvasWidth)
  }

  /** Movement never changes the shape, the death flag or the debris. */
  lemma MovedKeepsShape(p: Player, inputs: Inputs, floorContact: bool, canvasWidth: real)
    ensures var m := Moved(p, inputs, floorContact, canvasWidth);
      m.width == p.width && m.height == p.height && m.dead == p.dead && m.pieces == p.pieces
  {
  }

  /**
   * During a jump `x` moves at most one unit, toward the landing point, on every
   * tick but the one that lands (which may also walk a step).
   */
  lemma JumpMovesTowardLanding(p: Player, inputs: Inputs, floorContact: bool, canvasWidth: real)
    requires p.jump.Some? && (p.jump.value.directionUp || !floorContact || inputs.down)
    ensures var m := Moved(p, inputs, floorContact, canvasWidth);
      && (m.x == p.x || m.x == p.x + 1.0 || m.x == p.x - 1.0)
      && (m.x > p.x ==> p.x < p.jump.value.landingX && CanMoveX(canvasWidth, m.x, p.width))
      && (m.x < p.x ==> p.x > p.jump.value.landingX && CanMoveX(canvasWidth, m.x, p.width))
  {
  }

  /** While ascending, the player rises by exactly one or the jump turns downward. */
  lemma AscentRisesOrTurns(p: Player, inputs: Inputs, floorContact: bool, canvasWidth: real)
    requires p.jump.Some? && p.jump.value.directionUp
    ensures var m := Moved(p, inputs, floorContact, canvasWidth);
      || (m.y == p.y - 1.0 && m.jump == p.jump && p.jump.value.minY < p.y)
      || (m.y == p.y && m.jump == Some(p.jump.value.(directionUp := false)))
  {
  }

  /** Without floor contact and not ascending, the player falls by one. */
  lemma FallsWithoutFloor(p: Player, inputs: Inputs, canvasWidth: real)
    requires p.jump.None? || !p.jump.value.directionUp
    ensures Moved(p, inputs, false, canvasWidth).y == p.y + 1.0
    ensures Moved(p, inputs, false, canvasWidth).jump == p.jump
  {
  }

  /** Landing without crouching ends the jump; held keys walk one step within bounds. */
  lemma LandingEndsJump(p: Player, inputs: Inputs, canvasWidth: real)
    requires p.jump.None? || !p.jump.value.directionUp
    requires !inputs.down
    requires CanMoveX(canvasWidth, p.x, p.width)
    ensures var m := Moved(p, inputs, true, canvasWidth);
      && m.jump.None? && m.y == p.y
      && CanMoveX(canvasWidth, m.x, p.width)
      && (p.jump.None? ==> m.x == Walk(p.x, inputs, canvasWidth, p.width))
  {
    assert CanMoveX(canvasWidth, JumpStepped(p, canvasWidth).x, p.width);
  }

  /** The death band: between 2 and 8 player heights below the lowest floor. */
  predicate InDeathBand(p: Player, maxFloorY: real) {
    p.y >= maxFloorY + p.height * 2.0 && p.y < maxFloorY + p.height * 8.0
  }

  /** A piece of debris lies within one player size of the player and is a third or a quarter of it. */
  ghost predicate NearPiece(piece: Box, obj: Box) {
    && obj.x - obj.width <= piece.x < obj.x + obj.width
    && obj.y - obj.height <= piece.y < obj.y + obj.height
    && (piece.height == obj.height / 3.0 || piece.height == obj.height / 4.0)
    && (piece.width == obj.width / 3.0 || piece.width == obj.width / 4.0)
  }

  /** `generateDeathEffect`'s result: 10 to 14 pieces around the player. */
  ghost predicate DeathCloud(pieces: seq<Box>, obj: Box) {
    10 <= |pieces| <= 14 && forall k :: 0 <= k < |pieces| ==> NearPiece(pieces[k], obj)
  }

  /** Each piece one unit lower, nothing else changed. */
  ghost predicate Drifted(before: seq<Box>, after: seq<Box>) {
    |after| == |before| && forall k :: 0 <= k < |before| ==> after[k] == before[k].(y := before[k].y + 1.0)
  }

  /** The level after `current`, wrapping to the first after the last. */
  function NextLevel(current: nat, count: nat): (next: nat)
    requires current < count
    ensures next < count
    ensures next == 0 <==> current == count - 1
    ensures next != 0 ==> next == current + 1
  {
    if current == count - 1 then 0 else current + 1
  }

  /**
   * The floor scan at the start of a tick: whether the player touches any floor,
   * and the largest floor `y`, starting from 0.
   */
  method ScanFloors(floors: seq<Box>, player: Box) returns (floorContact: bool, maxFloorY: real)
    ensures floorContact <==> exists k :: 0 <= k < |floors| && Colliding(player, floors[k])
    ensures maxFloorY >= 0.0 && forall k :: 0 <= k < |floors| ==> floors[k].y <= maxFloorY
    ensures maxFloorY == 0.0 || exists k :: 0 <= k < |floors| && floors[k].y == maxFloorY
  {
    floorContact, maxFloorY := false, 0.0;
    var k := 0;
    while k < |floors|
      invariant 0 <= k <= |floors|
      invariant floorContact <==> exists j :: 0 <= j < k && Colliding(player, floors[j])
      invariant maxFloorY >= 0.0 && forall j :: 0 <= j < k ==> floors[j].y <= maxFloorY
      invariant maxFloorY == 0.0 || exists j :: 0 <= j < k && floors[j].y == maxFloorY
    {
      if Colliding(player, floors[k]) {
        floorContact := true;
      }
      if floors[k].y > maxFloorY {
        maxFloorY := floors[k].y;
      }
      k := k + 1;
    }
  }

  /** `generateDeathEffect(obj)`. */
  method GenerateDeathEffect(obj: Box, rng: Source) returns (pieces: seq<Box>)
    requires obj.width > 0.0 && obj.height > 0.0
    modifies rng
    ensures DeathCloud(pieces, obj)
  {
    var count := RandomInt(rng, 10.0, 15.0);
    pieces := [];
    var i := 0;
    while i < count
      invariant 0 <= i <= count
      invariant |pieces| == i
      invariant forall k :: 0 <= k < i ==> NearPiece(pieces[k], obj)
    {
      var dx := RandomInt(rng, obj.width * -1.0, obj.width);
      var dy := RandomInt(rng, obj.height * -1.0, obj.height);
      var heightDivisor := RandomInt(rng, 3.0, 5.0);
      var widthDivisor := RandomInt(rng, 3.0, 5.0);
      SymmetricDrawWithin(obj.width, dx);
      SymmetricDrawWithin(obj.height, dy);
      assert heightDivisor == 3 || heightDivisor == 4;
      assert widthDivisor == 3 || widthDivisor == 4;
      var piece := Box(obj.x + dx as real, obj.y + dy as real,
                       obj.width / widthDivisor as real, obj.height / heightDivisor as real);
      assert NearPiece(piece, obj);
      pieces := pieces + [piece];
      i := i + 1;
    }
  }

  class Platform {
    var canvasWidth: real
    var activeLevel: nat
    var inputs: Inputs
    var player: Player
    var levels: seq<Level>

    /**
     * The player's shape follows the ArrowDown key; `activeLevel` indexes `levels`
     * once they exist; every level has a first floor to start on.
     */
    ghost predicate Valid()
      reads this
    {
      && canvasWidth >= 0.0
      && (inputs.down ==> player.width == CrouchWidth && player.height == CrouchHeight)
      && (!inputs.down ==> player.width == StandWidth && player.height == StandHeight)
      && (levels == [] || |levels| == LevelCount)
      && (levels == [] ==> activeLevel == 0)
      && (levels != [] ==> activeLevel < |levels|)
      && (forall i :: 0 <= i < |levels| ==> levels[i].floors != [])
    }

    /** After a successful `start`: the handlers and the tick are installed. */
    ghost predicate Started()
      reads this
    {
      Valid() && levels != []
    }

    /** The module's initial values, before `start`. */
    constructor ()
      ensures Valid() && levels == [] && activeLevel == 0 && canvasWidth == 500.0
      ensures inputs == Inputs(false, false, false, false)
      ensures player == Player(0.0, 0.0, StandWidth, StandHeight, None, false, None)
    {
      canvasWidth := 500.0;
      activeLevel := 0;
      inputs := Inputs(false, false, false, false);
      player := Player(0.0, 0.0, StandWidth, StandHeight, None, false, None);
      levels := [];
    }

    /**
     * `start`: take the container's width, generate 20 levels and enter the
     * active one.  When the generator throws, the levels and the player stay as
     * they were.
     */
    method Start(width: real, rng: Source) returns (ok: bool)
      requires Valid() && width >= 0.0
      modifies this, rng
      ensures Valid() && canvasWidth == width
      ensures inputs == old(inputs) && activeLevel == old(activeLevel)
      ensures ok ==> Started() && |levels| == LevelCount
      ensures ok ==> forall i :: 0 <= i < |levels| ==> LaidOut(levels[i], width, old(player.width))
      ensures ok ==> player == Respawned(old(player), levels[activeLevel].floors[0])
      ensures !ok ==> levels == old(levels) && player == old(player)
      ensures width > 50.0 ==> ok
    {
      canvasWidth := width;
      var generated := GenerateLevels(LevelCount, canvasWidth, player.width, rng);
      if generated.None? {
        return false;
      }
      levels := generated.value;
      InitLevel(activeLevel);
      ok := true;
    }

    /** `initLevel(level)`. */
    method InitLevel(level: nat)
      requires level < |levels| && levels[level].floors != []
      modifies this
      ensures inputs == old(inputs) && levels == old(levels)
      ensures canvasWidth == old(canvasWidth) && activeLevel == old(activeLevel)
      ensures player == Respawned(old(player), levels[level].floors[0])
    {
      var first := levels[level].floors[0];
      player := player.(x := first.x + player.width);
      player := player.(y := first.y - player.height - 20.0);
      player := player.(jump := None);
      player := player.(dead := false);
      player := player.(pieces := None);
    }

    /** The `onkeydown` handler. */
    method KeyDown(key: Key)
      requires Started()
      modifies this
      ensures Started()
      ensures levels == old(levels) && activeLevel == old(activeLevel) && canvasWidth == old(canvasWidth)
      ensures key == Enter ==>
        inputs == old(inputs) && player == Respawned(old(player), levels[activeLevel].floors[0])
      ensures key == ArrowUp ==> inputs == old(inputs).(up := true)
      ensures key == ArrowUp && !old(inputs.up) && old(player.jump).None? ==>
        player == old(player).(jump := Some(JumpFrom(old(player), old(inputs))))
      ensures key == ArrowUp && (old(inputs.up) || old(player.jump).Some?) ==> player == old(player)
      ensures key == ArrowDown ==> inputs == old(inputs).(down := true)
      ensures key == ArrowDown ==> player == if old(inputs.down) then old(player) else Crouched(old(player))
      ensures key == ArrowLeft ==> inputs == old(inputs).(left := true) && player == old(player)
      ensures key == ArrowRight ==> inputs == old(inputs).(right := true) && player == old(player)
      ensures key == OtherKey ==> inputs == old(inputs) && player == old(player)
    {
      match key
      case Enter =>
        InitLevel(activeLevel);
      case ArrowUp =>
        if !inputs.up && player.jump.None? {
          var maxDist := MaxJumpHeight * 2;
          var dist := 0;
          if inputs.right {
            dist := maxDist;
          }
          if inputs.left {
            dist := -maxDist;
          }
          player := player.(jump := Some(Jump(player.x + dist as real, player.y - MaxJumpHeight as real, true)));
        }
        inputs := inputs.(up := true);
      case ArrowDown =>
        if !inputs.down {
          player := player.(height := player.height / 2.0);
          player := player.(width := player.width * 1.2);
        }
        inputs := inputs.(down := true);
      case ArrowLeft =>
        inputs := inputs.(left := true);
      case ArrowRight =>
        inputs := inputs.(right := true);
      case OtherKey =>
    }

    /** The `onkeyup` handler. */
    method KeyUp(key: Key)
      requires Started()
      modifies this
      ensures Started()
      ensures levels == old(levels) && activeLevel == old(activeLevel) && canvasWidth == old(canvasWidth)
      ensures key == ArrowUp ==> inputs == old(inputs).(up := false) && player == old(player)
      ensures key == ArrowDown ==> inputs == old(inputs).(down := false)
      ensures key == ArrowDown ==> player == if old(inputs.down) then Stood(old(player)) else old(player)
      ensures key == ArrowLeft ==> inputs == old(inputs).(left := false) && player == old(player)
      ensures key == ArrowRight ==> inputs == old(inputs).(right := false) && player == old(player)
      ensures key == Enter || key == OtherKey ==> inputs == old(inputs) && player == old(player)
    {
      match key
      case ArrowUp =>
        inputs := inputs.(up := false);
      case ArrowDown =>
        if inputs.down {
          player := player.(height := player.height * 2.0);
          player := player.(width := player.width / 1.2);
          player := player.(y := player.y - player.height / 2.0);
        }
        inputs := inputs.(down := false);
      case ArrowLeft =>
        inputs := inputs.(left := false);
      case ArrowRight =>
        inputs := inputs.(right := false);
      case _ =>
    }

    /** One tick of the game loop, drawing left out. */
    method Tick(rng: Source)
      requires Started()
      modifies this, rng
      ensures Started()
      ensures levels == old(levels) && inputs == old(inputs) && canvasWidth == old(canvasWidth)
    {
      var floorContact, maxFloorY := ScanFloors(levels[activeLevel].floors, BoxOf(player));
      Move(floorContact);
      Settle(maxFloorY, rng);
    }

    /** The movement part of a tick: jump arc, falling, landing and walking. */
    method Move(floorContact: bool)
      requires Started()
      modifies this
      ensures Started()
      ensures player == Moved(old(player), inputs, floorContact, canvasWidth)
      ensures levels == old(levels) && inputs == old(inputs)
      ensures canvasWidth == old(canvasWidth) && activeLevel == old(activeLevel)
    {
      StepTowardLanding();
      StepVertically(floorContact);
    }

    /** While a jump is active, one unit toward its landing point when in bounds. */
    method StepTowardLanding()
      requires Started()
      modifies this
      ensures Started()
      ensures player == JumpStepped(old(player), canvasWidth)
      ensures levels == old(levels) && inputs == old(inputs)
      ensures canvasWidth == old(canvasWidth) && activeLevel == old(activeLevel)
    {
      if player.jump.Some? {
        if player.x < player.jump.value.landingX && CanMoveX(canvasWidth, player.x + 1.0, player.width) {
          player := player.(x := player.x + 1.0);
        } else if player.x > player.jump.value.landingX && CanMoveX(canvasWidth, player.x - 1.0, player.width) {
          player := player.(x := player.x - 1.0);
        }
      }
    }

    /** Ascend toward the apex, or fall, or land: the vertical part of a tick. */
    method StepVertically(floorContact: bool)
      requires Started()
      modifies this
      ensures Started()
      ensures player == Climbed(old(player), inputs, floorContact, canvasWidth)
      ensures levels == old(levels) && inputs == old(inputs)
      ensures canvasWidth == old(canvasWidth) && activeLevel == old(activeLevel)
    {
      if player.jump.Some? && player.jump.value.directionUp {
        if player.jump.value.minY < player.y && CanMoveY(player.y - 1.0, player.height) {
          player := player.(y := player.y - 1.0);
        } else if player.jump.value.minY >= player.y || !CanMoveY(player.y - 1.0, player.height) || floorContact {
          player := player.(jump := Some(player.jump.value.(directionUp := false)));
        }
      } else {
        if !floorContact {
          player := player.(y := player.y + 1.0);
        } else if !inputs.down {
          player := player.(jump := None);
          // no walking while crouched
          if inputs.right && CanMoveX(canvasWidth, player.x + 1.0, player.width) {
            player := player.(x := player.x + 1.0);
          }
          if inputs.left && CanMoveX(canvasWidth, player.x - 1.0, player.width) {
            player := player.(x := player.x - 1.0);
          }
        }
      }
    }

    /**
     * The end of a tick: death in the band below the lowest floor, the restart
     * at level 0 once a dead player has left it, and the advance on reaching the goal.
     */
    method Settle(maxFloorY: real, rng: Source)
      requires Started()
      modifies this, rng
      ensures Started()
      ensures levels == old(levels) && inputs == old(inputs) && canvasWidth == old(canvasWidth)
      ensures InDeathBand(old(player), maxFloorY) ==>
        && activeLevel == old(activeLevel) && player.dead && player.pieces.Some?
        && player.(dead := old(player.dead), pieces := old(player.pieces)) == old(player)
        && (old(player.pieces).None? ==> DeathCloud(player.pieces.value, BoxOf(old(player))))
        && (old(player.pieces).Some? ==> Drifted(old(player.pieces).value, player.pieces.value))
      ensures !InDeathBand(old(player), maxFloorY) && old(player.dead) ==>
        activeLevel == 0 && player == Respawned(old(player), levels[0].floors[0])
      ensures !InDeathBand(old(player), maxFloorY) && !old(player.dead)
              && Colliding(BoxOf(old(player)), levels[old(activeLevel)].end) ==>
        && activeLevel == NextLevel(old(activeLevel), |levels|)
        && player == Respawned(old(player), levels[activeLevel].floors[0])
      ensures !InDeathBand(old(player), maxFloorY) && !old(player.dead)
              && !Colliding(BoxOf(old(player)), levels[old(activeLevel)].end) ==>
        activeLevel == old(activeLevel) && player == old(player)
    {
      if player.y >= maxFloorY + player.height * 2.0 && player.y < maxFloorY + player.height * 8.0 {
        player := player.(dead := true);
        if player.pieces.None? {
          var pieces := GenerateDeathEffect(BoxOf(player), rng);
          player := player.(pieces := Some(pieces));
        } else {
          DriftPieces(rng);
        }
      } else if player.dead {
        activeLevel := 0;
        InitLevel(activeLevel);
      } else if Colliding(BoxOf(player), levels[activeLevel].end) {
        if activeLevel == |levels| - 1 {
          activeLevel := 0;
        } else {
          activeLevel := activeLevel + 1;
        }
        InitLevel(activeLevel);
      }
    }

    /**
     * Existing debris: each piece falls by one and drifts sideways by
     * `getRandomInt(0, 1)`, which is always 0.
     */
    method DriftPieces(rng: Source)
      requires Started() && player.pieces.Some?
      modifies this, rng
      ensures Started() && player.pieces.Some?
      ensures Drifted(old(player.pieces).value, player.pieces.value)
      ensures player.(pieces := old(player.pieces)) == old(player)
      ensures levels == old(levels) && inputs == old(inputs)
      ensures canvasWidth == old(canvasWidth) && activeLevel == old(activeLevel)
    {
      ghost var before := player.pieces.value;
      var k := 0;
      while k < |player.pieces.value|
        invariant Started() && player.pieces.Some? && |player.pieces.value| == |before|
        invariant 0 <= k <= |before|
        invariant forall j :: 0 <= j < k ==> player.pieces.value[j] == before[j].(y := before[j].y + 1.0)
        invariant forall j :: k <= j < |before| ==> player.pieces.value[j] == before[j]
        invariant player.(pieces := old(player.pieces)) == old(player)
        invariant levels == old(levels) && inputs == old(inputs)
        invariant canvasWidth == old(canvasWidth) && activeLevel == old(activeLevel)
      {
        var piece := player.pieces.value[k];
        piece := piece.(y := piece.y + 1.0);
        if piece.x > player.x {
          var drift := RandomInt(rng, 0.0, 1.0);
          piece := piece.(x := piece.x + drift as real);
        } else {
          var drift := RandomInt(rng, 0.0, 1.0);
          piece := piece.(x := piece.x - drift as real);
        }
        player := player.(pieces := Some(player.pieces.value[k := piece]));
        k := k + 1;
      }
    }
  }
}
