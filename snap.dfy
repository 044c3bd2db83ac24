/** `apply_window_snap`: after a floating window is moved, it jumps to
  * the nearest edge of another floating window, of its monitor or of the
  * monitor's window area, when that edge is closer than `snap_distance`.
  * Edges are measured on the content rectangles, inside the border when
  * the border is not drawn. */
module Snap {
  import opened CNum
  import opened Opt
  import opened Geometry

  /** No snap candidate yet: the start value of the four minima. */
  const NO_SNAP: int := 99999

  /** A client as the snap reads it: its geometry, the flags, whether its
    * surface is mapped, and VISIBLEON(tc, c->mon). */
  datatype SnapWin = SnapWin(geom: Box, isfloating: bool, iskilling: bool, mapped: bool, visible: bool,
                             fakeNoBorder: bool)

  datatype SnapConfig = SnapConfig(renderBorder: bool, borderpx: int, enableFloatingSnap: bool, snapDistance: int)

  /** The border the snap looks through (unsigned): the whole border when
    * borders are not drawn for this window. */
  function SnapBorder(w: SnapWin, cfg: SnapConfig): (r: int)
    ensures 0 <= r < TWO_32
  {
    if !cfg.renderBorder || w.fakeNoBorder then U32(cfg.borderpx) else 0
  }

  /** The content rectangle as the four unsigned values `cx, cy, cw, ch`. */
  function Inner(w: SnapWin, cfg: SnapConfig): (r: Box)
    ensures 0 <= r.x < TWO_32 && 0 <= r.y < TWO_32 && 0 <= r.width < TWO_32 && 0 <= r.height < TWO_32
  {
    var b := SnapBorder(w, cfg);
    Box(U32(w.geom.x + b), U32(w.geom.y + b), U32(w.geom.width - 2 * b), U32(w.geom.height - 2 * b))
  }

  /** The windows the loop measures against (the moved window itself
    * among them). */
  predicate Counts(t: SnapWin) {
    t.isfloating && !t.iskilling && t.mapped && t.visible
  }

  /** The four gaps of one candidate, each the unsigned difference stored
    * into an `int`; -1, which no minimum takes, for an ignored window. */
  datatype Sides = Sides(left: int, right: int, up: int, down: int)

  function WinGaps(ci: Box, t: SnapWin, cfg: SnapConfig): Sides {
    if !Counts(t) then Sides(-1, -1, -1, -1)
    else
      var ti := Inner(t, cfg);
      Sides(I32(ci.x - ti.x - ti.width), I32(ti.x - ci.x - ci.width),
            I32(ci.y - ti.y - ti.height), I32(ti.y - ci.y - ci.height))
  }

  /** The gaps to the edges of an area (`m->m` or `m->w`). */
  function EdgeGaps(ci: Box, a: Box): Sides {
    Sides(I32(ci.x - a.x), I32(a.x + a.width - ci.x - ci.width),
          I32(ci.y - a.y), I32(a.y + a.height - ci.y - ci.height))
  }

  /** Every candidate in the order the function takes them: the windows
    * of the list, the monitor, the window area. */
  function AllGaps(c: SnapWin, ws: seq<SnapWin>, mbox: Box, wbox: Box, cfg: SnapConfig): (r: seq<Sides>)
    ensures |r| == |ws| + 2
  {
    var ci := Inner(c, cfg);
    ListGaps(ci, ws, cfg) + [EdgeGaps(ci, mbox), EdgeGaps(ci, wbox)]
  }

  function ListGaps(ci: Box, ws: seq<SnapWin>, cfg: SnapConfig): (r: seq<Sides>)
    ensures |r| == |ws|
  {
    seq(|ws|, i requires 0 <= i < |ws| => WinGaps(ci, ws[i], cfg))
  }

  /** The four minima after the first `k` candidates. */
  function LeastSides(s: seq<Sides>, k: nat): Sides
    requires k <= |s|
  {
    Sides(Least(Lefts(s), k), Least(Rights(s), k), Least(Ups(s), k), Least(Downs(s), k))
  }

  function TakeSides(b: Sides, g: Sides): Sides {
    Sides(Take(b.left, g.left), Take(b.right, g.right), Take(b.up, g.up), Take(b.down, g.down))
  }

  lemma LeastSidesStep(s: seq<Sides>, k: nat)
    requires k < |s|
    ensures LeastSides(s, k + 1) == TakeSides(LeastSides(s, k), s[k])
  {
  }

  /** The minima only depend on the candidates taken so far. */
  lemma {:induction false} LeastPrefix(a: seq<int>, b: seq<int>, k: nat)
    requires k <= |a| && k <= |b| && a[..k] == b[..k]
    ensures Least(a, k) == Least(b, k)
  {
    if k > 0 {
      assert a[k - 1] == a[..k][k - 1] == b[..k][k - 1] == b[k - 1];
      assert a[..k - 1] == a[..k][..k - 1] == b[..k][..k - 1] == b[..k - 1];
      LeastPrefix(a, b, k - 1);
    }
  }

  function Lefts(s: seq<Sides>): (r: seq<int>)
    ensures |r| == |s| && forall i :: 0 <= i < |s| ==> r[i] == s[i].left
  {
    seq(|s|, i requires 0 <= i < |s| => s[i].left)
  }

  function Rights(s: seq<Sides>): (r: seq<int>)
    ensures |r| == |s| && forall i :: 0 <= i < |s| ==> r[i] == s[i].right
  {
    seq(|s|, i requires 0 <= i < |s| => s[i].right)
  }

  function Ups(s: seq<Sides>): (r: seq<int>)
    ensures |r| == |s| && forall i :: 0 <= i < |s| ==> r[i] == s[i].up
  {
    seq(|s|, i requires 0 <= i < |s| => s[i].up)
  }

  function Downs(s: seq<Sides>): (r: seq<int>)
    ensures |r| == |s| && forall i :: 0 <= i < |s| ==> r[i] == s[i].down
  {
    seq(|s|, i requires 0 <= i < |s| => s[i].down)
  }

  /** One step of a minimum: a candidate replaces the value when it is
    * not negative and smaller. */
  function Take(best: int, v: int): int {
    if v < best && v >= 0 then v else best
  }

  /** The minimum after the first `k` candidates. */
  function Least(vs: seq<int>, k: nat): int
    requires k <= |vs|
  {
    if k == 0 then NO_SNAP else Take(Least(vs, k - 1), vs[k - 1])
  }

  /** The minimum is the least candidate that is not negative, or
    * `NO_SNAP` when none is smaller. */
  lemma {:induction false} LeastIsMin(vs: seq<int>, k: nat)
    requires k <= |vs|
    ensures 0 <= Least(vs, k) <= NO_SNAP
    ensures forall j :: 0 <= j < k && vs[j] >= 0 ==> Least(vs, k) <= vs[j]
    ensures Least(vs, k) == NO_SNAP || exists j :: 0 <= j < k && vs[j] == Least(vs, k)
  {
    if k > 0 {
      LeastIsMin(vs, k - 1);
    }
  }

  /** The new coordinate on one axis from the gaps toward the lower and
    * the higher side: the nearer one wins (the higher side on a tie) if
    * it is closer than the snap distance. */
  function Move(x: int, lo: int, hi: int, dist: int): int {
    if lo < hi && lo < dist then I32(x - lo)
    else if hi <= lo && hi < dist then I32(x + hi)
    else x
  }

  /** The geometry `resize` receives (and `oldgeom` is set to), or none
    * when the function returns early: no monitor, an unmapped or dying
    * window, a tiled window, or snapping switched off. */
  function SnapSpec(c: SnapWin, hasMon: bool, ws: seq<SnapWin>, mbox: Box, wbox: Box, cfg: SnapConfig): (r: Option<Box>)
    ensures r.None? <==> !hasMon || !c.mapped || c.iskilling || !c.isfloating || !cfg.enableFloatingSnap
    ensures r.Some? ==> r.value.width == c.geom.width && r.value.height == c.geom.height
  {
    if !hasMon || !c.mapped || c.iskilling || !c.isfloating || !cfg.enableFloatingSnap then None
    else
      var all := AllGaps(c, ws, mbox, wbox, cfg);
      var best := LeastSides(all, |all|);
      Some(c.geom.(x := Move(c.geom.x, best.left, best.right, cfg.snapDistance),
                   y := Move(c.geom.y, best.up, best.down, cfg.snapDistance)))
  }

  /** The loop over the window list and the two edge checks. */
  method ApplyWindowSnap(c: SnapWin, hasMon: bool, ws: seq<SnapWin>, mbox: Box, wbox: Box, cfg: SnapConfig)
    returns (r: Option<Box>)
    ensures r == SnapSpec(c, hasMon, ws, mbox, wbox, cfg)
  {
    if !hasMon || !c.mapped || c.iskilling || !c.isfloating || !cfg.enableFloatingSnap {
      return None;
    }
    var ci := Inner(c, cfg);
    var best := ListMinima(ci, ws, cfg);
    ghost var all := AllGaps(c, ws, mbox, wbox, cfg);
    AllGapsMinima(c, ws, mbox, wbox, cfg);
    best := TakeSides(TakeSides(best, EdgeGaps(ci, mbox)), EdgeGaps(ci, wbox));
    r := Some(c.geom.(x := Move(c.geom.x, best.left, best.right, cfg.snapDistance),
                      y := Move(c.geom.y, best.up, best.down, cfg.snapDistance)));
  }

  /** The minima over all candidates continue those over the windows. */
  lemma AllGapsMinima(c: SnapWin, ws: seq<SnapWin>, mbox: Box, wbox: Box, cfg: SnapConfig)
    ensures var ci, all := Inner(c, cfg), AllGaps(c, ws, mbox, wbox, cfg);
            LeastSides(all, |all|)
            == TakeSides(TakeSides(LeastSides(ListGaps(ci, ws, cfg), |ws|), EdgeGaps(ci, mbox)), EdgeGaps(ci, wbox))
  {
    var ci, all := Inner(c, cfg), AllGaps(c, ws, mbox, wbox, cfg);
    var lg := ListGaps(ci, ws, cfg);
    var n := |ws|;
    assert Lefts(all)[..n] == Lefts(lg)[..n];
    assert Rights(all)[..n] == Rights(lg)[..n];
    assert Ups(all)[..n] == Ups(lg)[..n];
    assert Downs(all)[..n] == Downs(lg)[..n];
    LeastPrefix(Lefts(all), Lefts(lg), n);
    LeastPrefix(Rights(all), Rights(lg), n);
    LeastPrefix(Ups(all), Ups(lg), n);
    LeastPrefix(Downs(all), Downs(lg), n);
    LeastSidesStep(all, n);
    LeastSidesStep(all, n + 1);
  }

  /** The loop over the window list: the four minima over its gaps. */
  method ListMinima(ci: Box, ws: seq<SnapWin>, cfg: SnapConfig) returns (best: Sides)
    ensures best == LeastSides(ListGaps(ci, ws, cfg), |ws|)
  {
    var lg := ListGaps(ci, ws, cfg);
    best := Sides(NO_SNAP, NO_SNAP, NO_SNAP, NO_SNAP);
    var k := 0;
    while k < |ws|
      invariant k <= |ws|
      invariant best == LeastSides(lg, k)
    {
      LeastSidesStep(lg, k);
      best := TakeSides(best, lg[k]);
      k := k + 1;
    }
  }

  /** One axis of the snap: a move goes toward the side of the smaller
    * minimum, by exactly that minimum, which is the gap to some
    * candidate (or `NO_SNAP`) and no larger than any candidate gap on
    * either side; a move is always shorter than the snap distance; and
    * when a candidate closer than the snap distance exists, the window
    * does move unless it already touches. */
  lemma AxisSnapsToNearest(x: int, lo: seq<int>, hi: seq<int>, dist: int)
    requires -TWO_31 + NO_SNAP <= x < TWO_31 - NO_SNAP
    ensures var a, b, r := Least(lo, |lo|), Least(hi, |hi|), Move(x, Least(lo, |lo|), Least(hi, |hi|), dist);
            (r < x ==> x - r < dist && x - r < b
                       && (forall j :: 0 <= j < |lo| && lo[j] >= 0 ==> x - r <= lo[j])
                       && (forall j :: 0 <= j < |hi| && hi[j] >= 0 ==> x - r < hi[j])
                       && (x - r == NO_SNAP || exists j :: 0 <= j < |lo| && lo[j] == x - r))
            && (r > x ==> r - x < dist && r - x <= a
                          && (forall j :: 0 <= j < |hi| && hi[j] >= 0 ==> r - x <= hi[j])
                          && (forall j :: 0 <= j < |lo| && lo[j] >= 0 ==> r - x <= lo[j])
                          && (r - x == NO_SNAP || exists j :: 0 <= j < |hi| && hi[j] == r - x))
            && (r == x <==> Min(a, b) >= dist || Min(a, b) == 0)
  {
    LeastIsMin(lo, |lo|);
    LeastIsMin(hi, |hi|);
  }

  /** Snapping twice in a row without other changes moves no further
    * horizontally when the first snap reached a window edge it now
    * touches: the left gap to that candidate becomes zero. */
  lemma TouchingDoesNotMove(x: int, lo: seq<int>, hi: seq<int>, dist: int)
    requires dist > 0 && InI32(x)
    requires exists j :: 0 <= j < |lo| && lo[j] == 0
    ensures Move(x, Least(lo, |lo|), Least(hi, |hi|), dist) == x
  {
    LeastIsMin(lo, |lo|);
    LeastIsMin(hi, |hi|);
  }
}
