/** `find_client_by_direction`: the window that a directional focus or
  * swap moves to.  Candidates are the windows of the global list, in list
  * order; among those on the requested side, the nearest window that is
  * in line with the selected one wins, and only when none is in line (and
  * `align` is off) the nearest one on that side at all.  Ties go to the
  * earlier window, since a candidate replaces the best so far only when
  * strictly nearer. */
module Neighbour {
  import opened Opt
  import opened Geometry
  import opened State
  import opened Tags
  import opened Closest

  /** A client as the search reads it: its settled geometry, the flags,
    * whether it is on `selmon`, its tags and its own monitor's selected
    * tagset. */
  datatype Cand = Cand(geom: Box, isfloating: bool, isunglobal: bool, onSelmon: bool, tags: bv32, monTags: bv32)

  /** The filter of the collection loops. */
  predicate Eligible(c: Cand, findfloating: bool, crossMonitor: bool) {
    (findfloating || !c.isfloating) && !c.isunglobal && (crossMonitor || c.onSelmon) && Meets(c.tags, c.monTags)
  }

  /** Lies strictly on side `d` of the point (`sx`, `sy`); no window lies
    * on the side `UNDIR`, which no case of the switch handles. */
  predicate Beyond(d: Direction, g: Box, sx: int, sy: int) {
    match d
    case Up => g.y < sy
    case Down => g.y > sy
    case Left => g.x < sx
    case Right => g.x > sx
    case Undir => false
  }

  /** On side `d` and in line with the point: the same x for up and
    * down, the same y for left and right. */
  predicate InLine(d: Direction, g: Box, sx: int, sy: int) {
    Beyond(d, g, sx, sy) && (if d == Up || d == Down then g.x == sx else g.y == sy)
  }

  /** The squared distance between the top-left corners. */
  function Dist(g: Box, sx: int, sy: int): (r: int)
    ensures r >= 0
    ensures r == 0 <==> g.x == sx && g.y == sy
  {
    (g.x - sx) * (g.x - sx) + (g.y - sy) * (g.y - sy)
  }

  function Dists(cs: seq<Cand>, sel: Box): (r: seq<int>)
    ensures |r| == |cs| && forall i :: 0 <= i < |cs| ==> r[i] == Dist(cs[i].geom, sel.x, sel.y)
  {
    seq(|cs|, i requires 0 <= i < |cs| => Dist(cs[i].geom, sel.x, sel.y))
  }

  /** Candidates of the first pass: eligible and in line. */
  function AlignedFlags(cs: seq<Cand>, sel: Box, d: Direction, ff: bool, cm: bool): (r: seq<bool>)
    ensures |r| == |cs|
    ensures forall i :: 0 <= i < |cs| ==> (r[i] <==> Eligible(cs[i], ff, cm) && InLine(d, cs[i].geom, sel.x, sel.y))
  {
    seq(|cs|, i requires 0 <= i < |cs| => Eligible(cs[i], ff, cm) && InLine(d, cs[i].geom, sel.x, sel.y))
  }

  /** Candidates of the second pass: eligible and on the requested side. */
  function SideFlags(cs: seq<Cand>, sel: Box, d: Direction, ff: bool, cm: bool): (r: seq<bool>)
    ensures |r| == |cs|
    ensures forall i :: 0 <= i < |cs| ==> (r[i] <==> Eligible(cs[i], ff, cm) && Beyond(d, cs[i].geom, sel.x, sel.y))
  {
    seq(|cs|, i requires 0 <= i < |cs| => Eligible(cs[i], ff, cm) && Beyond(d, cs[i].geom, sel.x, sel.y))
  }

  /** The index in `cs` of the window found from the selected geometry
    * `sel`, or none. */
  function Find(cs: seq<Cand>, sel: Box, d: Direction, ff: bool, align: bool, cm: bool): (r: Option<nat>)
    ensures r.Some? ==> r.value < |cs|
  {
    var first := Nearest(AlignedFlags(cs, sel, d, ff, cm), Dists(cs, sel), |cs|);
    if first.None? && !align then Nearest(SideFlags(cs, sel, d, ff, cm), Dists(cs, sel), |cs|) else first
  }

  /** The two search loops: the in-line pass, then the relaxed pass when
    * it found nothing and `align` is off. */
  method FindClientByDirection(cs: seq<Cand>, sel: Box, d: Direction, findfloating: bool, align: bool,
                               crossMonitor: bool) returns (r: Option<nat>)
    ensures r == Find(cs, sel, d, findfloating, align, crossMonitor)
  {
    var dist := Dists(cs, sel);
    r := FirstNearest(AlignedFlags(cs, sel, d, findfloating, crossMonitor), dist);
    if r.None? && !align {
      r := FirstNearest(SideFlags(cs, sel, d, findfloating, crossMonitor), dist);
    }
  }

  /** What the search finds: an eligible window on the requested side;
    * nothing exactly when no eligible window is in line and either
    * `align` is on or no eligible window is on that side; when some
    * eligible window is in line, the nearest of those, and otherwise the
    * nearest on that side; never a window before an equally near one. */
  lemma FindIsNearest(cs: seq<Cand>, sel: Box, d: Direction, ff: bool, align: bool, cm: bool)
    ensures var r := Find(cs, sel, d, ff, align, cm);
            r.Some? ==> Eligible(cs[r.value], ff, cm) && Beyond(d, cs[r.value].geom, sel.x, sel.y)
    ensures var r := Find(cs, sel, d, ff, align, cm);
            r.None? <==> (forall j :: 0 <= j < |cs| && Eligible(cs[j], ff, cm) ==> !InLine(d, cs[j].geom, sel.x, sel.y))
                         && (align || forall j :: 0 <= j < |cs| && Eligible(cs[j], ff, cm) ==> !Beyond(d, cs[j].geom, sel.x, sel.y))
    ensures var r := Find(cs, sel, d, ff, align, cm);
            (exists j :: 0 <= j < |cs| && Eligible(cs[j], ff, cm) && InLine(d, cs[j].geom, sel.x, sel.y)) ==>
              r.Some? && InLine(d, cs[r.value].geom, sel.x, sel.y)
              && (forall j :: 0 <= j < |cs| && Eligible(cs[j], ff, cm) && InLine(d, cs[j].geom, sel.x, sel.y) ==>
                    Dist(cs[r.value].geom, sel.x, sel.y) <= Dist(cs[j].geom, sel.x, sel.y))
    ensures var r := Find(cs, sel, d, ff, align, cm);
            r.Some? && !InLine(d, cs[r.value].geom, sel.x, sel.y) ==>
              !align && forall j :: 0 <= j < |cs| && Eligible(cs[j], ff, cm) && Beyond(d, cs[j].geom, sel.x, sel.y) ==>
                          Dist(cs[r.value].geom, sel.x, sel.y) <= Dist(cs[j].geom, sel.x, sel.y)
    ensures var r := Find(cs, sel, d, ff, align, cm);
            r.Some? ==> forall j :: 0 <= j < r.value && Eligible(cs[j], ff, cm) && InLine(d, cs[j].geom, sel.x, sel.y) ==>
                          Dist(cs[r.value].geom, sel.x, sel.y) < Dist(cs[j].geom, sel.x, sel.y)
  {
    var af := AlignedFlags(cs, sel, d, ff, cm);
    var sf := SideFlags(cs, sel, d, ff, cm);
    var ds := Dists(cs, sel);
    NearestIsFirstLeast(af, ds, |cs|);
    NearestIsFirstLeast(sf, ds, |cs|);
  }

  /** With `align` on, the search only ever moves in line. */
  lemma AlignedStaysInLine(cs: seq<Cand>, sel: Box, d: Direction, ff: bool, cm: bool)
    ensures var r := Find(cs, sel, d, ff, true, cm);
            r.Some? ==> InLine(d, cs[r.value].geom, sel.x, sel.y)
  {
    NearestIsFirstLeast(AlignedFlags(cs, sel, d, ff, cm), Dists(cs, sel), |cs|);
  }

  /** The selected window itself is never found: it is on no side of its
    * own corner. */
  lemma NeverFindsItself(cs: seq<Cand>, sel: Box, d: Direction, ff: bool, align: bool, cm: bool)
    ensures var r := Find(cs, sel, d, ff, align, cm);
            r.Some? ==> cs[r.value].geom.x != sel.x || cs[r.value].geom.y != sel.y
  {
    FindIsNearest(cs, sel, d, ff, align, cm);
  }
}
