/**
 * The dodge game: the player drags a square around a field of enemies that
 * move in straight lines and bounce off the walls.  The module-level state
 * (`player`, `enemies`, `gameRunning`, `gameTime`, the last mouse position) is
 * one object; drawing and the one-second clock that advances `gameTime` are
 * left out.
 */
module DodgeGame {
  import opened Wrappers
  import opened Geometry
  import opened Randomness

  const CanvasHeight: real := 500.0
  const PlayerSize: real := 15.0
  /** How far outside the player a press still grabs it. */
  const HitMargin: real := 10.0

  datatype Player = Player(x: real, y: real, width: real, height: real, dragging: bool)

  /** An enemy; every value it holds is an integer drawn by `getRandomInt` or a sum of those. */
  datatype Enemy = Enemy(
    x: int, y: int, width: int, height: int,
    moveX: int, moveY: int, startX: int, startY: int)

  /** What `generateRandomEvent` did; `Failed` is the source's TypeError on an empty field. */
  datatype Event = Idle | Spawned | Replaced(index: int) | SpedUp(index: int) | Failed

  function PlayerBox(p: Player): Box {
    Box(p.x, p.y, p.width, p.height)
  }

  function EnemyBox(e: Enemy): Box {
    Box(e.x as real, e.y as real, e.width as real, e.height as real)
  }

  function Abs(v: int): int {
    if v < 0 then -v else v
  }

  /** `canMoveYAxis`: the whole height inside the field. */
  predicate CanMoveY(y: real, height: real) {
    y >= 0.0 && y <= CanvasHeight - height
  }

  /** Both coordinates pass their bounds test. */
  predicate InField(p: Player, canvasWidth: real) {
    CanMoveX(canvasWidth, p.x, p.width) && CanMoveY(p.y, p.height)
  }

  /** `mouseOnGameObject`: 10 units of slack to the left and top, half a size to the right and bottom. */
  predicate MouseOnGameObject(mouseX: real, mouseY: real, obj: Box) {
    && mouseX >= obj.x - HitMargin
    && mouseX <= obj.x + obj.width * 1.5
    && mouseY >= obj.y - HitMargin
    && mouseY <= obj.y + obj.height * 1.5
  }

  /** Every point of the object itself, edges included, is a hit. */
  lemma MouseOnCoversObject(mouseX: real, mouseY: real, obj: Box)
    requires obj.width >= 0.0 && obj.height >= 0.0
    requires obj.x <= mouseX <= obj.x + obj.width && obj.y <= mouseY <= obj.y + obj.height
    ensures MouseOnGameObject(mouseX, mouseY, obj)
  {
  }

  /** An enemy always moves on both axes. */
  ghost predicate Moving(e: Enemy) {
    e.moveX != 0 && e.moveY != 0
  }

  /**
   * A freshly generated enemy: a square of side 15 to 19 at a drawn position
   * that is also its start position, with speeds in [-4, 3] that are never 0.
   */
  ghost predicate Generated(e: Enemy, canvasWidth: real) {
    && 15 <= e.width <= 19 && e.height == e.width
    && InDrawRange(0, (canvasWidth - e.width as real).Floor, e.x)
    && 0 <= e.y && e.y as real < CanvasHeight - e.width as real
    && e.startX == e.x && e.startY == e.y
    && -4 <= e.moveX <= 3 && e.moveX != 0
    && -4 <= e.moveY <= 3 && e.moveY != 0
  }

  /** On a field at least 20 wide a generated enemy lies wholly inside it. */
  lemma GeneratedInField(e: Enemy, canvasWidth: real)
    requires Generated(e, canvasWidth) && canvasWidth >= 20.0
    ensures 0 <= e.x && (e.x + e.width) as real < canvasWidth
    ensures 0 <= e.y && (e.y + e.height) as real < CanvasHeight
  {
    assert (canvasWidth - e.width as real).Floor >= 1;
  }

  /** `generateEnemies(amount)`: one enemy per loop pass `i = 0, 1, ...` with `i < amount`. */
  ghost predicate GeneratedBatch(enemies: seq<Enemy>, amount: real, canvasWidth: real) {
    && |enemies| as real >= amount
    && (|enemies| > 0 ==> (|enemies| - 1) as real < amount)
    && forall k :: 0 <= k < |enemies| ==> Generated(enemies[k], canvasWidth)
  }

  /** The batch has ⌈amount⌉ enemies, none for a non-positive amount. */
  lemma BatchSizeIsCeiling(enemies: seq<Enemy>, amount: real, canvasWidth: real)
    requires GeneratedBatch(enemies, amount, canvasWidth)
    ensures |enemies| == if amount <= 0.0 then 0 else Ceil(amount)
  {
    if amount > 0.0 {
      assert |enemies| > 0;
    }
  }

  /** `moveEnemy`: bounce off a wall the enemy touches, then advance. */
  function Bounced(e: Enemy, canvasWidth: real): (m: Enemy)
    // horizontal speed is kept, pointing away from a side wall the enemy touches
    ensures Abs(m.moveX) == Abs(e.moveX)
    ensures e.x as real >= canvasWidth - e.width as real ==> m.moveX <= 0
    ensures e.x as real < canvasWidth - e.width as real && e.x <= 0 ==> m.moveX >= 0
    ensures 0 < e.x && e.x as real < canvasWidth - e.width as real ==> m.moveX == e.moveX
    // at the top or bottom wall the vertical speed takes the size of the HORIZONTAL one
    ensures e.y as real >= CanvasHeight - e.height as real ==> m.moveY == -Abs(e.moveX)
    ensures e.y as real < CanvasHeight - e.height as real && e.y <= 0 ==> m.moveY == Abs(e.moveX)
    ensures 0 < e.y && e.y as real < CanvasHeight - e.height as real ==> m.moveY == e.moveY
    // then both coordinates advance by the new speeds; nothing else changes
    ensures m.x == e.x + m.moveX && m.y == e.y + m.moveY
    ensures m.(x := e.x, y := e.y, moveX := e.moveX, moveY := e.moveY) == e
  {
    var moveX :=
      if e.x as real >= canvasWidth - e.width as real then -Abs(e.moveX)
      else if e.x <= 0 then Abs(e.moveX)
      else e.moveX;
    var moveY :=
      if e.y as real >= CanvasHeight - e.height as real then -Abs(moveX)
      else if e.y <= 0 then Abs(moveX)
      else e.moveY;
    e.(moveX := moveX, moveY := moveY, x := e.x + moveX, y := e.y + moveY)
  }

  /** Bouncing keeps an enemy moving on both axes. */
  lemma BounceKeepsMoving(e: Enemy, canvasWidth: real)
    requires Moving(e)
    ensures Moving(Bounced(e, canvasWidth))
  {
  }

  /**
   * The vertical bounce takes its size from the horizontal speed: an enemy
   * falling slowly onto the bottom wall leaves it as fast as it moves sideways.
   */
  lemma BottomBounceTakesHorizontalSpeed()
    ensures var e := Enemy(100, 490, 15, 15, 4, 1, 100, 100);
      Bounced(e, 500.0).moveY == -4 && Abs(Bounced(e, 500.0).moveY) != Abs(e.moveY)
  {
  }

  /** The step of `moveEnemy` on one enemy, field by field. */
  method MoveEnemy(enemy: Enemy, canvasWidth: real) returns (moved: Enemy)
    ensures moved == Bounced(enemy, canvasWidth)
  {
    moved := enemy;
    if moved.x as real >= canvasWidth - moved.width as real {
      moved := moved.(moveX := -1 * Abs(moved.moveX));
    } else if moved.x <= 0 {
      moved := moved.(moveX := 1 * Abs(moved.moveX));
    }
    if moved.y as real >= CanvasHeight - moved.height as real {
      moved := moved.(moveY := -1 * Abs(moved.moveX));
    } else if moved.y <= 0 {
      moved := moved.(moveY := 1 * Abs(moved.moveX));
    }
    moved := moved.(x := moved.x + moved.moveX);
    moved := moved.(y := moved.y + moved.moveY);
  }

  /** The enemies after one pass of the tick: bounced when the game runs, else as they were. */
  ghost function Walked(enemies: seq<Enemy>, running: bool, canvasWidth: real): (w: seq<Enemy>)
    ensures |w| == |enemies|
  {
    if running then seq(|enemies|, k requires 0 <= k < |enemies| => Bounced(enemies[k], canvasWidth))
    else enemies
  }

  /** Some enemy overlaps the player. */
  ghost predicate AnyHit(enemies: seq<Enemy>, player: Player) {
    exists k :: 0 <= k < |enemies| && Colliding(EnemyBox(enemies[k]), PlayerBox(player))
  }

  /** Speeding up: one more unit in the direction already taken (a 0 becomes -1). */
  function Faster(v: int): (r: int)
    ensures r != 0
    ensures v != 0 ==> (r > 0 <==> v > 0) && Abs(r) == Abs(v) + 1
  {
    if v > 0 then v + 1 else v - 1
  }

  function Accelerated(e: Enemy): Enemy {
    e.(moveX := Faster(e.moveX), moveY := Faster(e.moveY))
  }

  /** The enemy a random event may pick: never the last one of two or more. */
  predicate Pickable(index: int, count: nat) {
    0 <= index < count && (count >= 2 ==> index <= count - 2)
  }

  /**
   * A replacement: a newly generated enemy moved to the old one's place, whose
   * height was overwritten with the old WIDTH.  Undoing those three writes gives
   * back the generated enemy.
   */
  ghost predicate ReplacementOf(before: Enemy, after: Enemy, canvasWidth: real) {
    && after.x == before.x && after.y == before.y && after.height == before.width
    && Generated(after.(height := after.width, x := after.startX, y := after.startY), canvasWidth)
  }

  /**
   * The replacement step of a random event: the new enemy takes the old one's
   * place, and its height is written twice, first with the old height and then
   * with the old width.
   */
  method Transplant(newcomer: Enemy, enemy: Enemy, canvasWidth: real) returns (replacement: Enemy)
    ensures replacement.x == enemy.x && replacement.y == enemy.y && replacement.height == enemy.width
    ensures replacement.(x := newcomer.x, y := newcomer.y, height := newcomer.height) == newcomer
    ensures Generated(newcomer, canvasWidth) ==> ReplacementOf(enemy, replacement, canvasWidth)
  {
    replacement := newcomer;
    replacement := replacement.(height := enemy.height);
    replacement := replacement.(height := enemy.width);
    replacement := replacement.(x := enemy.x);
    replacement := replacement.(y := enemy.y);
  }

  /** The speed-up step of a random event, one axis after the other. */
  method SpeedUp(enemy: Enemy) returns (faster: Enemy)
    ensures faster == Accelerated(enemy)
    ensures Moving(faster)
  {
    faster := enemy;
    if faster.moveX > 0 {
      faster := faster.(moveX := faster.moveX + 1);
    } else {
      faster := faster.(moveX := faster.moveX - 1);
    }
    if faster.moveY > 0 {
      faster := faster.(moveY := faster.moveY + 1);
    } else {
      faster := faster.(moveY := faster.moveY - 1);
    }
  }

  /** `generateEnemies(amount)`. */
  method GenerateEnemies(amount: real, canvasWidth: real, rng: Source) returns (enemies: seq<Enemy>)
    modifies rng
    ensures GeneratedBatch(enemies, amount, canvasWidth)
  {
    enemies := [];
    var i := 0;
    while (i as real) < amount
      invariant 0 <= i && |enemies| == i
      invariant i > 0 ==> ((i - 1) as real) < amount
      invariant forall k :: 0 <= k < i ==> Generated(enemies[k], canvasWidth)
      decreases Ceil(amount) - i
    {
      var size := RandomInt(rng, 15.0, 20.0);
      var posX := RandomInt(rng, 0.0, canvasWidth - size as real);
      var posY := RandomInt(rng, 0.0, CanvasHeight - size as real);
      var speedX := RandomInt(rng, -4.0, 4.0);
      var speedY := RandomInt(rng, -4.0, 4.0);
      var enemy := Enemy(posX, posY, size, size,
                         if speedX == 0 then 1 else speedX,
                         if speedY == 0 then -1 else speedY,
                         posX, posY);
      enemies := enemies + [enemy];
      i := i + 1;
    }
  }

  class Dodge {
    var canvasWidth: real
    var gameTime: int
    var gameRunning: bool
    var mouseX: real
    var mouseY: real
    var player: Player
    var enemies: seq<Enemy>
    /**
     * The enemy array's property "-1": a random event on an empty field may
     * write an enemy there, which the array's length and `forEach` never see but
     * a later event can read.  A new array (`init`) has none.
     */
    var stray: Option<Enemy>

    /** The player keeps its 15 x 15 size, and every enemy keeps moving. */
    ghost predicate Valid()
      reads this
    {
      && player.width == PlayerSize && player.height == PlayerSize
      && (forall k :: 0 <= k < |enemies| ==> Moving(enemies[k]))
      && (stray.Some? ==> Moving(stray.value))
    }

    /** The player as `init` leaves it: centred, not dragging. */
    ghost predicate Centred()
      reads this
    {
      && player.x == canvasWidth / 2.0 - PlayerSize
      && player.y == CanvasHeight / 2.0 - PlayerSize
      && !player.dragging
    }

    /** The module's initial values, before `start`. */
    constructor ()
      ensures Valid() && canvasWidth == 500.0 && gameTime == 0 && !gameRunning
      ensures mouseX == 0.0 && mouseY == 0.0 && enemies == [] && stray == None
      ensures player == Player(0.0, 0.0, PlayerSize, PlayerSize, false)
    {
      canvasWidth := 500.0;
      gameTime := 0;
      gameRunning := false;
      mouseX, mouseY := 0.0, 0.0;
      player := Player(0.0, 0.0, PlayerSize, PlayerSize, false);
      enemies := [];
      stray := None;
    }

    /** `start`: take the container's width and initialise. */
    method Start(width: real, rng: Source)
      requires Valid()
      modifies this, rng
      ensures Valid() && canvasWidth == width && !gameRunning && Centred()
      ensures GeneratedBatch(enemies, width / 100.0, width) && stray == None
      ensures gameTime == old(gameTime) && mouseX == old(mouseX) && mouseY == old(mouseY)
    {
      canvasWidth := width;
      Init(rng);
    }

    /** `init`: stop, centre the player and generate `canvasWidth / 100` enemies. */
    method Init(rng: Source)
      requires Valid()
      modifies this, rng
      ensures Valid() && !gameRunning && Centred()
      ensures player.width == old(player.width) && player.height == old(player.height)
      ensures GeneratedBatch(enemies, canvasWidth / 100.0, canvasWidth) && stray == None
      ensures canvasWidth == old(canvasWidth) && gameTime == old(gameTime)
      ensures mouseX == old(mouseX) && mouseY == old(mouseY)
    {
      gameRunning := false;
      player := player.(dragging := false);
      player := player.(x := canvasWidth / 2.0 - player.width);
      player := player.(y := CanvasHeight / 2.0 - player.height);
      enemies := GenerateEnemies(canvasWidth / 100.0, canvasWidth, rng);
      stray := None;
    }

    /** The `onmousedown` handler, with the press already in canvas coordinates. */
    method MouseDown(x: real, y: real)
      requires Valid()
      modifies this
      ensures Valid()
      ensures canvasWidth == old(canvasWidth) && enemies == old(enemies) && stray == old(stray)
      ensures mouseX == old(mouseX) && mouseY == old(mouseY)
      ensures MouseOnGameObject(x, y, PlayerBox(old(player))) ==>
        && gameRunning && player == old(player).(dragging := true)
        && gameTime == if old(gameRunning) then old(gameTime) else 0
      ensures !MouseOnGameObject(x, y, PlayerBox(old(player))) ==>
        gameRunning == old(gameRunning) && gameTime == old(gameTime) && player == old(player)
    {
      if MouseOnGameObject(x, y, PlayerBox(player)) {
        if !gameRunning {
          gameTime := 0;
        }
        gameRunning := true;
        player := player.(dragging := true);
      }
    }

    /** The `onmouseup` handler: the drag ends, the game keeps running. */
    method MouseUp()
      requires Valid()
      modifies this
      ensures Valid() && player == old(player).(dragging := false)
      ensures gameRunning == old(gameRunning) && gameTime == old(gameTime)
      ensures canvasWidth == old(canvasWidth) && enemies == old(enemies) && stray == old(stray)
      ensures mouseX == old(mouseX) && mouseY == old(mouseY)
    {
      player := player.(dragging := false);
    }

    /**
     * The `onmousemove` handler: while dragging a running game, each axis follows
     * the mouse only if the new coordinate passes its bounds test.
     */
    method MouseMove(x: real, y: real)
      requires Valid()
      modifies this
      ensures Valid() && mouseX == x && mouseY == y
      ensures gameRunning == old(gameRunning) && gameTime == old(gameTime)
      ensures canvasWidth == old(canvasWidth) && enemies == old(enemies) && stray == old(stray)
      ensures old(player.dragging) && old(gameRunning) ==>
        player == old(player).(
          x := if CanMoveX(canvasWidth, x, PlayerSize) then x else old(player.x),
          y := if CanMoveY(y, PlayerSize) then y else old(player.y))
      ensures !(old(player.dragging) && old(gameRunning)) ==> player == old(player)
      ensures InField(old(player), canvasWidth) ==> InField(player, canvasWidth)
    {
      mouseX := x;
      mouseY := y;
      if player.dragging && gameRunning {
        if CanMoveX(canvasWidth, mouseX, player.width) {
          player := player.(x := mouseX);
        }
        if CanMoveY(mouseY, player.height) {
          player := player.(y := mouseY);
        }
      }
    }

    /**
     * The enemy pass of a tick.  `forEach` walks the array it started on even
     * after `init` replaced it, so later enemies of the old array are still
     * tested against the re-centred player.
     */
    method MoveEnemies(rng: Source) returns (reset: bool)
      requires Valid()
      modifies this, rng
      ensures Valid()
      ensures canvasWidth == old(canvasWidth) && gameTime == old(gameTime)
      ensures mouseX == old(mouseX) && mouseY == old(mouseY)
      ensures reset <==> AnyHit(Walked(old(enemies), old(gameRunning), canvasWidth), old(player))
      ensures !reset ==>
        && enemies == Walked(old(enemies), old(gameRunning), canvasWidth)
        && player == old(player) && gameRunning == old(gameRunning) && stray == old(stray)
      ensures reset ==>
        !gameRunning && Centred() && GeneratedBatch(enemies, canvasWidth / 100.0, canvasWidth) && stray == None
    {
      ghost var walkedAll := Walked(old(enemies), old(gameRunning), canvasWidth);
      var walked := enemies;
      reset := false;
      var i := 0;
      while i < |walked|
        invariant Valid() && 0 <= i <= |walked| == |old(enemies)|
        invariant canvasWidth == old(canvasWidth) && gameTime == old(gameTime)
        invariant mouseX == old(mouseX) && mouseY == old(mouseY)
        invariant forall k :: i <= k < |walked| ==> walked[k] == old(enemies)[k]
        invariant !reset ==> forall k :: 0 <= k < i ==> walked[k] == walkedAll[k]
        invariant !reset ==> enemies == walked && player == old(player) && gameRunning == old(gameRunning)
        invariant !reset ==> stray == old(stray)
        invariant !reset ==> forall k :: 0 <= k < i ==> !Colliding(EnemyBox(walkedAll[k]), PlayerBox(old(player)))
        invariant reset ==>
          !gameRunning && Centred() && GeneratedBatch(enemies, canvasWidth / 100.0, canvasWidth) && stray == None
        invariant reset ==> exists k :: 0 <= k < i && Colliding(EnemyBox(walkedAll[k]), PlayerBox(old(player)))
      {
        if gameRunning {
          var moved := MoveEnemy(walked[i], canvasWidth);
          walked := walked[i := moved];
          enemies := walked;
        }
        if Colliding(EnemyBox(walked[i]), PlayerBox(player)) {
          if !reset {
            assert Colliding(EnemyBox(walkedAll[i]), PlayerBox(old(player)));
          }
          Init(rng);
          reset := true;
        }
        i := i + 1;
      }
      if !reset {
        assert walked == walkedAll;
      }
    }

    /** Random events happen only once the game has run more than 10 seconds. */
    ghost predicate EventsActive()
      reads this
    {
      gameRunning && gameTime > 10
    }

    /**
     * `generateRandomEvent`: once the game has run more than 10 seconds, draw
     * `rnd` in [0, 999]; 999 adds an enemy, 51..99 replaces one, 0..50 speeds
     * one up.  `rnd` and the picked index `idx` are returned as drawn, each 0
     * when it was not drawn.
     * The index drawn on an empty field is -1 or 0: index -1 reads and writes
     * `stray`, and reading a field of a missing enemy throws (`Failed`).
     */
    method GenerateRandomEvent(rng: Source) returns (event: Event, rnd: int, idx: int)
      requires Valid()
      modifies this, rng
      ensures Valid()
      ensures player == old(player) && gameRunning == old(gameRunning) && gameTime == old(gameTime)
      ensures canvasWidth == old(canvasWidth) && mouseX == old(mouseX) && mouseY == old(mouseY)
      ensures !old(EventsActive()) ==> event == Idle && rnd == 0
      ensures old(EventsActive()) ==> 0 <= rnd < 1000
      // which event the drawn value selects
      ensures event == Spawned <==> old(EventsActive()) && rnd == 999
      ensures event.Replaced? ==> 51 <= rnd <= 99
      ensures event.SpedUp? ==> rnd <= 50
      ensures event == Failed ==> rnd < 100
      ensures old(EventsActive()) && 100 <= rnd <= 998 ==> event == Idle
      ensures old(EventsActive()) && rnd < 100 && old(enemies) != [] ==>
        && (rnd > 50 ==> event.Replaced? && event.index >= 0)
        && (rnd <= 50 ==> event.SpedUp? && event.index >= 0)
      ensures old(EventsActive()) && rnd < 100 && old(enemies) == [] ==>
        || event == Failed
        || (old(stray).Some? && event == (if rnd > 50 then Replaced(-1) else SpedUp(-1)))
      ensures old(EventsActive()) && rnd < 100 && old(enemies) == [] && old(stray).None? ==> event == Failed
      // which enemy the drawn index selects
      ensures !(old(EventsActive()) && rnd < 100) ==> idx == 0
      ensures old(EventsActive()) && rnd < 100 && old(enemies) != [] ==>
        Pickable(idx, |old(enemies)|) && (event.Replaced? || event.SpedUp?) && event.index == idx
      ensures old(EventsActive()) && rnd < 100 && old(enemies) == [] ==> idx == -1 || idx == 0
      ensures old(EventsActive()) && rnd < 100 && old(enemies) == [] && idx == -1 && old(stray).Some? ==>
        event == (if rnd > 50 then Replaced(-1) else SpedUp(-1))
      ensures old(EventsActive()) && rnd < 100 && old(enemies) == [] && (idx == 0 || old(stray).None?) ==>
        event == Failed
      // what each event does to the enemies
      ensures event == Idle || event == Spawned ==> stray == old(stray)
      ensures event == Idle ==> enemies == old(enemies)
      ensures event == Spawned ==>
        && |enemies| == |old(enemies)| + 1 && enemies[..|old(enemies)|] == old(enemies)
        && Generated(enemies[|old(enemies)|], canvasWidth)
      ensures (event.Replaced? || event.SpedUp?) && event.index >= 0 ==>
        && Pickable(event.index, |old(enemies)|) && |enemies| == |old(enemies)| && stray == old(stray)
      ensures event.Replaced? && event.index >= 0 ==>
        && enemies == old(enemies)[event.index := enemies[event.index]]
        && ReplacementOf(old(enemies)[event.index], enemies[event.index], canvasWidth)
      ensures event.SpedUp? && event.index >= 0 ==>
        enemies == old(enemies)[event.index := Accelerated(old(enemies)[event.index])]
      ensures (event.Replaced? || event.SpedUp?) && event.index < 0 ==>
        && event.index == -1 && old(enemies) == [] && enemies == []
        && old(stray).Some? && stray.Some?
      ensures event == Replaced(-1) ==> ReplacementOf(old(stray).value, stray.value, canvasWidth)
      ensures event == SpedUp(-1) ==> stray == Some(Accelerated(old(stray).value))
      ensures event == Failed ==>
        && old(enemies) == []
        && (enemies == [] || (|enemies| == 1 && Generated(enemies[0], canvasWidth)))
        && (stray == old(stray) || (old(stray).None? && stray.Some? && Generated(stray.value, canvasWidth)))
      // a failed replacement has already written the new enemy at the drawn index
      ensures event == Failed && rnd > 50 && idx == -1 ==>
        enemies == [] && stray.Some? && Generated(stray.value, canvasWidth)
      ensures event == Failed && rnd > 50 && idx == 0 ==>
        |enemies| == 1 && Generated(enemies[0], canvasWidth) && stray == old(stray)
      ensures event == Failed && rnd <= 50 ==> enemies == old(enemies) && stray == old(stray)
    {
      event, rnd, idx := Idle, 0, 0;
      if gameRunning && gameTime > 10 {
        rnd := RandomInt(rng, 0.0, 1000.0);
        if rnd > 998 {
          var spawned := GenerateEnemies(1.0, canvasWidth, rng);
          enemies := enemies + [spawned[0]];
          event := Spawned;
        }
        if rnd < 100 {
          idx := RandomInt(rng, 0.0, (|enemies| - 1) as real);
          // what `enemies[idx]` reads
          var picked: Option<Enemy> := None;
          if 0 <= idx < |enemies| {
            picked := Some(enemies[idx]);
          } else if idx == -1 {
            picked := stray;
          }
          if rnd > 50 {
            var newcomer := GenerateEnemies(1.0, canvasWidth, rng);
            if picked.None? {
              // the write lands, then reading the missing enemy's height throws
              if idx == -1 {
                stray := Some(newcomer[0]);
              } else {
                enemies := enemies + [newcomer[0]];
              }
              event := Failed;
              return;
            }
            var replacement := Transplant(newcomer[0], picked.value, canvasWidth);
            if idx == -1 {
              stray := Some(replacement);
            } else {
              enemies := enemies[idx := replacement];
            }
            event := Replaced(idx);
          } else {
            if picked.None? {
              event := Failed;
              return;
            }
            var faster := SpeedUp(picked.value);
            if idx == -1 {
              stray := Some(faster);
            } else {
              enemies := enemies[idx := faster];
            }
            event := SpedUp(idx);
          }
        }
      }
    }

    /** One tick of the 15 ms loop, drawing left out. */
    method Tick(rng: Source) returns (reset: bool, event: Event)
      requires Valid()
      modifies this, rng
      ensures Valid()
      ensures canvasWidth == old(canvasWidth) && gameTime == old(gameTime)
      ensures reset ==> !gameRunning && Centred() && event == Idle
      ensures !reset ==> player == old(player) && gameRunning == old(gameRunning)
    {
      reset := MoveEnemies(rng);
      var rnd, idx;
      event, rnd, idx := GenerateRandomEvent(rng);
    }
  }
}
