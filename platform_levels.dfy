/**
 * The platform game's level generator (`generateLevels`): floors placed left to
 * right at half the canvas height, separated by gaps a jump can clear, with a goal
 * post standing on the last floor.
 */
module PlatformLevels {
  import opened Wrappers
  import opened Geometry
  import opened Randomness

  const CanvasHeight: real := 500.0
  const MaxJumpHeight: int := 30
  const FloorHeight: real := 5.0
  const EndWidth: real := 5.0
  const EndHeight: real := 50.0
  /** Every floor lies at `canvasHeight / 2`. */
  const FloorY: real := CanvasHeight / 2.0
  /** `getRandomInt(3, 10)` floors are attempted per level. */
  const MaxFloors: nat := 9

  datatype Level = Level(floors: seq<Box>, end: Box)

  /** The goal post: 5 wide, 50 high, its right edge on the right edge of `last`. */
  function GoalOn(last: Box): (end: Box)
    ensures end.x + end.width == last.x + last.width
    ensures end.y + end.height == last.y + FloorHeight
    ensures end.width == EndWidth && end.height == EndHeight
  {
    Box(last.x + last.width - EndWidth, last.y - EndHeight + FloorHeight, EndWidth, EndHeight)
  }

  /** The gap between two consecutive floors is a drawn value in [30, 60 + playerWidth). */
  ghost predicate Spaced(a: Box, b: Box, playerWidth: real) {
    var gap := b.x - (a.x + a.width);
    MaxJumpHeight as real <= gap < (2 * MaxJumpHeight) as real + playerWidth
  }

  /** The layout of the floors placed so far in a level. */
  ghost predicate FloorsLaidOut(floors: seq<Box>, canvasWidth: real, playerWidth: real) {
    && |floors| <= MaxFloors
    && (floors != [] ==> floors[0].x == 0.0)
    && (forall i :: 0 <= i < |floors| ==>
          && floors[i].y == FloorY
          && floors[i].height == FloorHeight
          && floors[i].width >= 0.0
          && floors[i].x + floors[i].width < canvasWidth)
    && (forall i :: 0 <= i < |floors| - 1 ==> Spaced(floors[i], floors[i + 1], playerWidth))
  }

  /** A finished level: at least one floor, and the goal on the last one. */
  ghost predicate LaidOut(level: Level, canvasWidth: real, playerWidth: real) {
    && level.floors != []
    && FloorsLaidOut(level.floors, canvasWidth, playerWidth)
    && level.end == GoalOn(level.floors[|level.floors| - 1])
  }

  /**
   * Floors never overlap: each one ends at least a minimal gap before any later
   * one starts, so their `x` values strictly increase.
   */
  lemma {:induction false} FloorsOrdered(floors: seq<Box>, canvasWidth: real, playerWidth: real)
    requires FloorsLaidOut(floors, canvasWidth, playerWidth)
    ensures forall i, j :: 0 <= i < j < |floors| ==>
              floors[i].x + floors[i].width + MaxJumpHeight as real <= floors[j].x
    ensures forall i, j :: 0 <= i < j < |floors| ==> floors[i].x < floors[j].x
  {
    if |floors| > 1 {
      var n := |floors| - 1;
      var front := floors[..n];
      assert FloorsLaidOut(front, canvasWidth, playerWidth) by {
        forall i | 0 <= i < |front| - 1
          ensures Spaced(front[i], front[i + 1], playerWidth)
        {
          assert front[i] == floors[i] && front[i + 1] == floors[i + 1];
        }
      }
      FloorsOrdered(front, canvasWidth, playerWidth);
      assert Spaced(floors[n - 1], floors[n], playerWidth);
      forall i, j | 0 <= i < j < |floors|
        ensures floors[i].x + floors[i].width + MaxJumpHeight as real <= floors[j].x
      {
        if j < n {
          assert front[i] == floors[i] && front[j] == floors[j];
        } else if i < n - 1 {
          assert front[i] == floors[i] && front[n - 1] == floors[n - 1];
        }
      }
    }
  }

  /** Every floor, and so the goal post, ends before the canvas' right edge. */
  lemma GoalInsideCanvas(level: Level, canvasWidth: real, playerWidth: real)
    requires LaidOut(level, canvasWidth, playerWidth)
    ensures level.end.x + level.end.width < canvasWidth
  {
  }

  /**
   * `generateLevels(count)`.  When a level ends up without floors the source reads
   * the `x` of an undefined last floor and throws; that outcome is `None`.  It can
   * only happen on a canvas at most 50 wide, where even the first floor may not fit.
   */
  method GenerateLevels(count: nat, canvasWidth: real, playerWidth: real, rng: Source)
    returns (levels: Option<seq<Level>>)
    requires canvasWidth >= 0.0 && playerWidth >= 0.0
    modifies rng
    ensures levels.Some? ==> |levels.value| == count
    ensures levels.Some? ==> forall i :: 0 <= i < count ==> LaidOut(levels.value[i], canvasWidth, playerWidth)
    ensures canvasWidth > 50.0 ==> levels.Some?
  {
    var done: seq<Level> := [];
    var l := 0;
    while l < count
      invariant 0 <= l <= count && |done| == l
      invariant forall k :: 0 <= k < l ==> LaidOut(done[k], canvasWidth, playerWidth)
    {
      var floorCount := RandomInt(rng, 3.0, 10.0);
      var usedWidth: real := 0.0;
      var currentY := CanvasHeight / 2.0;
      var floors: seq<Box> := [];
      var i := 0;
      while i < floorCount
        invariant 0 <= i <= floorCount + 2
        invariant |floors| <= i && |floors| <= floorCount
        invariant i <= floorCount ==> |floors| == i
        invariant FloorsLaidOut(floors, canvasWidth, playerWidth)
        invariant floors == [] ==> usedWidth == 0.0
        invariant floors != [] ==> usedWidth == floors[|floors| - 1].x + floors[|floors| - 1].width
        invariant floors != [] ==> 0.0 <= usedWidth < canvasWidth
        invariant canvasWidth > 50.0 && i > 0 ==> floors != []
        decreases floorCount + 2 - i
      {
        var width := RandomInt(rng, 50.0, (canvasWidth - usedWidth) / 4.0);
        var gap := 0;
        if i != 0 {
          gap := RandomInt(rng, MaxJumpHeight as real, (MaxJumpHeight * 2) as real + playerWidth);
        }
        if width as real + gap as real + usedWidth >= canvasWidth {
          i := floorCount + 1;
        } else {
          var x := if i == 0 then 0.0 else floors[i - 1].x + floors[i - 1].width + gap as real;
          var floor := Box(x, currentY, width as real, FloorHeight);
          floors := floors + [floor];
          usedWidth := usedWidth + width as real + gap as real;
        }
        i := i + 1;
      }
      if floors == [] {
        return None;
      }
      var last := floors[|floors| - 1];
      done := done + [Level(floors, GoalOn(last))];
      l := l + 1;
    }
    return Some(done);
  }
}
