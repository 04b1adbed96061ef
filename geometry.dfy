/** Axis-aligned bounding boxes, shared by the obstacle engine and the collision resolver. */
module Geometry {

  datatype Box = Box(x: real, y: real, width: real, height: real)

  /** `checkAABBCollision`: strict overlap on both axes. */
  predicate Overlaps(a: Box, b: Box)
  {
    && a.x < b.x + b.width
    && a.x + a.width > b.x
    && a.y < b.y + b.height
    && a.y + a.height > b.y
  }

  /** Overlap does not depend on the order of the two boxes. */
  lemma OverlapsSymmetric(a: Box, b: Box)
    ensures Overlaps(a, b) <==> Overlaps(b, a)
  {
  }

  /** Boxes that only share a vertical or horizontal edge do not collide. */
  lemma SharedEdgeIsNoOverlap(a: Box, b: Box)
    requires a.x + a.width == b.x || b.x + b.width == a.x || a.y + a.height == b.y || b.y + b.height == a.y
    ensures !Overlaps(a, b)
  {
  }
}
