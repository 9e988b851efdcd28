/**
 * The rectangle shared by both games and the two tests that are written the same
 * way in both of them: the collision test and the horizontal bounds test.
 */
module Geometry {

  /** A game object's geometry; its colour only matters for drawing. */
  datatype Box = Box(x: real, y: real, width: real, height: real)

  /** `gameObjectsColliding`: the boxes overlap, every comparison strict. */
  predicate Colliding(one: Box, two: Box) {
    && one.x + one.width > two.x
    && one.x < two.x + two.width
    && one.y + one.height > two.y
    && one.y < two.y + two.height
  }

  /** `canMoveXAxis`: an object of this width at `x` stays inside the field. */
  predicate CanMoveX(canvasWidth: real, x: real, width: real) {
    x >= 0.0 && x <= canvasWidth - width
  }

  /** The point lies strictly inside the box. */
  predicate Inside(b: Box, px: real, py: real) {
    b.x < px < b.x + b.width && b.y < py < b.y + b.height
  }

  lemma CollidingSymmetric(a: Box, b: Box)
    ensures Colliding(a, b) <==> Colliding(b, a)
  {
  }

  /** Boxes that only share an edge do not collide. */
  lemma TouchingDoesNotCollide(a: Box, b: Box)
    requires a.x + a.width == b.x || b.x + b.width == a.x
          || a.y + a.height == b.y || b.y + b.height == a.y
    ensures !Colliding(a, b)
  {
  }

  /** A box of positive size collides with an identical box. */
  lemma SameBoxCollides(a: Box)
    requires a.width > 0.0 && a.height > 0.0
    ensures Colliding(a, a)
  {
  }

  /** For boxes of positive size, colliding means sharing an interior point. */
  lemma CollidingIffSharedPoint(a: Box, b: Box)
    requires a.width > 0.0 && a.height > 0.0 && b.width > 0.0 && b.height > 0.0
    ensures Colliding(a, b) <==> exists px: real, py: real :: Inside(a, px, py) && Inside(b, px, py)
  {
    if Colliding(a, b) {
      var left := if a.x < b.x then b.x else a.x;
      var right := if a.x + a.width < b.x + b.width then a.x + a.width else b.x + b.width;
      var top := if a.y < b.y then b.y else a.y;
      var bottom := if a.y + a.height < b.y + b.height then a.y + a.height else b.y + b.height;
      var px, py := (left + right) / 2.0, (top + bottom) / 2.0;
      assert Inside(a, px, py) && Inside(b, px, py);
    }
  }
}
