/** `setclient_coordinate_center`: where a floating window is placed.  It
  * is centred in its monitor's window area unless the client opts out,
  * then shifted by a percentage offset and pulled back onto the monitor,
  * allowing the border to hang over the edge when the border is hidden. */
module Placement {
  import opened CNum
  import opened Geometry

  /** The monitor the placement uses (`c->mon`, or `selmon` without one):
    * its full area `m` and its window area `w`. */
  datatype PlaceMon = PlaceMon(m: Box, w: Box)

  /** `len * (pct / 100.0)` stored into an `int`. */
  function Offset(len: int, pct: int): int {
    Trunc(len as real * (pct as real / 100.0))
  }

  /** The two edge checks of one axis: a window starting before the area
    * moves to its start (less the border allowance), then a window ending
    * past the area moves back so that it ends there (plus the allowance).
    * The allowance is unsigned, so both assignments go through `I32`. */
  function Clamp(p: int, size: int, lo: int, span: int, cbw: int): int {
    var p1 := if p < lo then I32(lo - cbw) else p;
    if p1 + size > lo + span then I32(lo + span - size + cbw) else p1
  }

  /** One axis after the offset: unchanged for a zero percentage. */
  function Shifted(p: int, len: int, pct: int, size: int, lo: int, span: int, cbw: int): int {
    if pct == 0 then p else Clamp(I32(p + Offset(len, pct)), size, lo, span, cbw)
  }

  /** The rectangle the function returns for client geometry `geom`.  The
    * horizontal offset is a percentage of half the area's width, the
    * vertical one of its whole height. */
  function CoordinateCenter(mon: PlaceMon, geom: Box, offsetx: int, offsety: int, noForceCenter: bool,
                            hitNoBorder: bool, bw: int): (r: Box)
    ensures r.width == geom.width && r.height == geom.height
    ensures noForceCenter && offsetx == 0 && offsety == 0 ==> r == geom
  {
    var cbw := if hitNoBorder then U32(bw) else 0;
    var x0 := if !noForceCenter then I32(mon.w.x + CDiv(mon.w.width - geom.width, 2)) else geom.x;
    var y0 := if !noForceCenter then I32(mon.w.y + CDiv(mon.w.height - geom.height, 2)) else geom.y;
    Box(Shifted(x0, CDiv(mon.w.width, 2), offsetx, geom.width, mon.m.x, mon.m.width, cbw),
        Shifted(y0, mon.w.height, offsety, geom.height, mon.m.y, mon.m.height, cbw),
        geom.width, geom.height)
  }

  /** Clamping leaves a window that fits its area within the area, up to
    * the border allowance on either side. */
  lemma ClampWithin(p: int, size: int, lo: int, span: int, cbw: int)
    requires 0 <= cbw && size <= span
    requires InI32(lo - cbw) && InI32(lo + span - size + cbw)
    ensures lo - cbw <= Clamp(p, size, lo, span, cbw)
    ensures Clamp(p, size, lo, span, cbw) + size <= lo + span + cbw
  {
  }

  /** A window already inside its area is not moved by the clamp. */
  lemma ClampKeepsInside(p: int, size: int, lo: int, span: int, cbw: int)
    requires lo <= p && p + size <= lo + span
    ensures Clamp(p, size, lo, span, cbw) == p
  {
  }

  /** Without offsets a centred window has equal margins on both sides of
    * the window area, up to the pixel the integer halving drops. */
  lemma CentredMargins(mon: PlaceMon, geom: Box, hitNoBorder: bool, bw: int)
    requires InI32(mon.w.x + CDiv(mon.w.width - geom.width, 2)) && InI32(mon.w.y + CDiv(mon.w.height - geom.height, 2))
    ensures var r := CoordinateCenter(mon, geom, 0, 0, false, hitNoBorder, bw);
            var left, right := r.x - mon.w.x, mon.w.x + mon.w.width - (r.x + r.width);
            var top, bottom := r.y - mon.w.y, mon.w.y + mon.w.height - (r.y + r.height);
            -1 <= right - left <= 1 && -1 <= bottom - top <= 1
  {
  }

  /** With an offset, a window no wider (no taller) than its monitor
    * ends up on the monitor, up to the border allowance. */
  lemma OffsetStaysOnMonitor(mon: PlaceMon, geom: Box, offsetx: int, offsety: int, noForceCenter: bool,
                             hitNoBorder: bool, bw: int)
    requires 0 <= bw < TWO_32
    requires geom.width <= mon.m.width && geom.height <= mon.m.height
    requires InI32(mon.m.x - bw) && InI32(mon.m.x + mon.m.width - geom.width + bw)
    requires InI32(mon.m.y - bw) && InI32(mon.m.y + mon.m.height - geom.height + bw)
    ensures var r, cbw := CoordinateCenter(mon, geom, offsetx, offsety, noForceCenter, hitNoBorder, bw),
                          if hitNoBorder then bw else 0;
            (offsetx != 0 ==> mon.m.x - cbw <= r.x && r.x + r.width <= mon.m.x + mon.m.width + cbw)
            && (offsety != 0 ==> mon.m.y - cbw <= r.y && r.y + r.height <= mon.m.y + mon.m.height + cbw)
  {
    var cbw := if hitNoBorder then U32(bw) else 0;
    var r := CoordinateCenter(mon, geom, offsetx, offsety, noForceCenter, hitNoBorder, bw);
    var x0 := if !noForceCenter then I32(mon.w.x + CDiv(mon.w.width - geom.width, 2)) else geom.x;
    var y0 := if !noForceCenter then I32(mon.w.y + CDiv(mon.w.height - geom.height, 2)) else geom.y;
    if offsetx != 0 {
      ClampWithin(I32(x0 + Offset(CDiv(mon.w.width, 2), offsetx)), geom.width, mon.m.x, mon.m.width, cbw);
    }
    if offsety != 0 {
      ClampWithin(I32(y0 + Offset(mon.w.height, offsety)), geom.height, mon.m.y, mon.m.height, cbw);
    }
  }
}
