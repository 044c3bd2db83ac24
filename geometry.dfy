/** Layout-relative rectangles (`struct wlr_box`) and the bounding rule
  * every resize applies to them. */
module Geometry {
  import opened CNum

  datatype Box = Box(x: int, y: int, width: int, height: int)

  /** The direction enum (`UP, DOWN, LEFT, RIGHT, UNDIR`). */
  datatype Direction = Up | Down | Left | Right | Undir

  /** The smallest window side a border width allows: one pixel of
    * content between two borders. */
  function MinSide(bw: nat): int { 1 + 2 * bw }

  /** Horizontal and vertical overlap of `g` with `b`. */
  predicate OverlapsX(g: Box, b: Box) { g.x < b.x + b.width && g.x + g.width > b.x }
  predicate OverlapsY(g: Box, b: Box) { g.y < b.y + b.height && g.y + g.height > b.y }

  /** `applybounds`: enforce the minimum size, then pull a window that lies
    * entirely beyond the right/bottom or left/top edge of `bbox` back so
    * that it touches the box. */
  function ApplyBounds(g: Box, bw: nat, bbox: Box): (r: Box)
    ensures r.width == Max(MinSide(bw), g.width) && r.height == Max(MinSide(bw), g.height)
    ensures r.x == g.x || r.x == bbox.x || r.x == bbox.x + bbox.width - r.width
    ensures r.y == g.y || r.y == bbox.y || r.y == bbox.y + bbox.height - r.height
  {
    var w := Max(MinSide(bw), g.width);
    var h := Max(MinSide(bw), g.height);
    var x1 := if g.x >= bbox.x + bbox.width then bbox.x + bbox.width - w else g.x;
    var y1 := if g.y >= bbox.y + bbox.height then bbox.y + bbox.height - h else g.y;
    var x2 := if x1 + w <= bbox.x then bbox.x else x1;
    var y2 := if y1 + h <= bbox.y then bbox.y else y1;
    Box(x2, y2, w, h)
  }

  /** After bounding, a window overlaps a non-empty bounding box on both
    * axes. */
  lemma ApplyBoundsOverlaps(g: Box, bw: nat, bbox: Box)
    requires bbox.width > 0 && bbox.height > 0
    ensures OverlapsX(ApplyBounds(g, bw, bbox), bbox)
    ensures OverlapsY(ApplyBounds(g, bw, bbox), bbox)
  {
  }

  /** A window that already has the minimum size and overlaps the box is
    * left exactly where it is. */
  lemma ApplyBoundsKeepsOverlapping(g: Box, bw: nat, bbox: Box)
    requires g.width >= MinSide(bw) && g.height >= MinSide(bw)
    requires OverlapsX(g, bbox) && OverlapsY(g, bbox)
    ensures ApplyBounds(g, bw, bbox) == g
  {
  }

  /** Bounding twice is bounding once. */
  lemma ApplyBoundsIdempotent(g: Box, bw: nat, bbox: Box)
    requires bbox.width > 0 && bbox.height > 0
    ensures ApplyBounds(ApplyBounds(g, bw, bbox), bw, bbox) == ApplyBounds(g, bw, bbox)
  {
    ApplyBoundsOverlaps(g, bw, bbox);
    ApplyBoundsKeepsOverlapping(ApplyBounds(g, bw, bbox), bw, bbox);
  }
}
