/** `scroller`: the placed windows form one horizontal strip.  The root
  * window (the focused one, else the previously focused one, else the one
  * nearest the centre) is placed first; its neighbours are then laid edge
  * to edge, one inner gap apart, to the left and to the right, each from
  * the settled geometry of the window next to it. */
module Scroller {
  import opened CNum
  import opened Opt
  import opened Geometry
  import opened Settings
  import opened LayoutBase
  import opened Closest

  /** The windows `scroller` places. */
  predicate Eligible(w: Win, m: LMon) {
    VisibleOn(w, m) && !w.unmanaged && !w.isfloating && !w.isfullscreen && !w.ismaxmizescreen
    && !w.iskilling && !w.tagouting
  }

  /** The indices of the placed windows among the first `k`, in order
    * (`tempClients`). */
  function CandidatesUpTo(ws: seq<Win>, m: LMon, k: nat): (r: seq<nat>)
    requires k <= |ws|
    ensures |r| <= k
    ensures forall p :: 0 <= p < |r| ==> r[p] < k && Eligible(ws[r[p]], m)
  {
    if k == 0 then [] else CandidatesUpTo(ws, m, k - 1) + (if Eligible(ws[k - 1], m) then [k - 1] else [])
  }

  function Candidates(ws: seq<Win>, m: LMon): (r: seq<nat>)
    ensures forall p :: 0 <= p < |r| ==> r[p] < |ws| && Eligible(ws[r[p]], m)
  {
    CandidatesUpTo(ws, m, |ws|)
  }

  /** The pass that fills `tempClients`. */
  method CollectCandidates(ws: seq<Win>, m: LMon) returns (temp: seq<nat>)
    ensures temp == Candidates(ws, m)
  {
    temp := [];
    var k := 0;
    while k < |ws|
      invariant k <= |ws| && temp == CandidatesUpTo(ws, m, k)
    {
      if Eligible(ws[k], m) {
        temp := temp + [k];
      }
      k := k + 1;
    }
  }

  /** A window that may be the root: managed, tiled, not maximized and not
    * fullscreen. */
  predicate RootCandidate(w: Win) {
    !w.unmanaged && !w.isfloating && !w.ismaxmizescreen && !w.isfullscreen
  }

  /** `center_select`'s measure: the squared distance between the centre
    * of the window and the centre of the window area (C division). */
  function CentreDistance(w: Win, m: LMon): int {
    var dx := w.geom.x + CDiv(w.geom.width, 2) - (m.w.x + CDiv(m.w.width, 2));
    var dy := w.geom.y + CDiv(w.geom.height, 2) - (m.w.y + CDiv(m.w.height, 2));
    dx * dx + dy * dy
  }

  /** The windows `center_select` considers. */
  predicate CentreCandidate(w: Win, m: LMon) {
    VisibleOn(w, m) && w.mapped && !w.isfloating && !w.unmanaged
  }

  /** The window `center_select(m)` picks. */
  function CentreOf(ws: seq<Win>, m: LMon): Option<nat> {
    Nearest(CentreFlags(ws, m), Distances(ws, m), |ws|)
  }

  /** `center_select(m)`: the first window, in list order, of least
    * distance to the centre among the candidates; none without any.
    * Distances are never negative, so the search's "no best yet" is the C
    * test `mini_distance == -1`. */
  method CenterSelect(ws: seq<Win>, m: LMon) returns (r: Option<nat>)
    ensures r == CentreOf(ws, m)
    ensures r.None? <==> forall k :: 0 <= k < |ws| ==> !CentreCandidate(ws[k], m)
    ensures r.Some? ==> r.value < |ws| && CentreCandidate(ws[r.value], m)
    ensures r.Some? ==> forall k :: 0 <= k < |ws| && CentreCandidate(ws[k], m) ==>
              CentreDistance(ws[r.value], m) <= CentreDistance(ws[k], m)
    ensures r.Some? ==> forall k :: 0 <= k < r.value && CentreCandidate(ws[k], m) ==>
              CentreDistance(ws[r.value], m) < CentreDistance(ws[k], m)
  {
    r := FirstNearest(CentreFlags(ws, m), Distances(ws, m));
    NearestIsFirstLeast(CentreFlags(ws, m), Distances(ws, m), |ws|);
  }

  function CentreFlags(ws: seq<Win>, m: LMon): (r: seq<bool>)
    ensures |r| == |ws| && forall k :: 0 <= k < |ws| ==> r[k] == CentreCandidate(ws[k], m)
  {
    seq(|ws|, k requires 0 <= k < |ws| => CentreCandidate(ws[k], m))
  }

  function Distances(ws: seq<Win>, m: LMon): (r: seq<int>)
    ensures |r| == |ws| && forall k :: 0 <= k < |ws| ==> r[k] == CentreDistance(ws[k], m)
  {
    seq(|ws|, k requires 0 <= k < |ws| => CentreDistance(ws[k], m))
  }


  /** The root: `m->sel` when it may be, else `m->prevsel` when it may be,
    * else the result of `center_select`. */
  function ChooseRoot(ws: seq<Win>, sel: Option<nat>, prevsel: Option<nat>, centre: Option<nat>): (r: Option<nat>)
    requires sel.Some? ==> sel.value < |ws|
    requires prevsel.Some? ==> prevsel.value < |ws|
    ensures sel.Some? && RootCandidate(ws[sel.value]) ==> r == sel
    ensures !(sel.Some? && RootCandidate(ws[sel.value])) && prevsel.Some? && RootCandidate(ws[prevsel.value]) ==> r == prevsel
    ensures !(sel.Some? && RootCandidate(ws[sel.value])) && !(prevsel.Some? && RootCandidate(ws[prevsel.value])) ==> r == centre
  {
    if sel.Some? && RootCandidate(ws[sel.value]) then sel
    else if prevsel.Some? && RootCandidate(ws[prevsel.value]) then prevsel
    else centre
  }

  /** The position of `root` among the placed windows; 0, and not found,
    * when it is not among them. */
  method FindRoot(temp: seq<nat>, root: nat) returns (f: nat, found: bool)
    ensures found ==> f < |temp| && temp[f] == root && forall p :: 0 <= p < f ==> temp[p] != root
    ensures !found ==> f == 0 && forall p :: 0 <= p < |temp| ==> temp[p] != root
  {
    var i := 0;
    while i < |temp|
      invariant i <= |temp| && forall p :: 0 <= p < i ==> temp[p] != root
    {
      if temp[i] == root {
        return i, true;
      }
      i := i + 1;
    }
    return 0, false;
  }

  /** The values fixed before placement: gaps, `max_client_width`, and the
    * common height and y of every window. */
  datatype Env = Env(m: LMon, g: Gaps, mcw: int, h: int, y: int, sgeom: Box)

  function MakeEnv(m: LMon, cfg: Config, sgeom: Box): (e: Env)
    ensures e.m == m && 0 <= e.mcw < TWO_32 && 0 <= e.g.ih < TWO_32
  {
    var g := CurGaps(m, cfg);
    var h := I32(U32(m.w.height - 2 * g.ov));
    Env(m, g, U32(m.w.width - 2 * cfg.scrollerStructs - g.ih), h, m.w.y + CDiv(m.w.height - h, 2), sgeom)
  }

  /** A window's width: its proportion of `max_client_width`, truncated. */
  function Width(e: Env, w: Win): int {
    Trunc(e.mcw as real * w.proportion)
  }

  /** The geometry a window settles on after a request. */
  function SettleIn(e: Env, w: Win, b: Box): Box {
    Settle(w, b, e.m, e.sgeom)
  }

  /** The single window: its share `scroller_default_proportion_single` of
    * the width inside the outer gaps, centred on the window area. */
  function SingleBox(m: LMon, cfg: Config): Box {
    var g := CurGaps(m, cfg);
    var h := I32(U32(m.w.height - 2 * g.ov));
    var w := Trunc(U32(m.w.width - 2 * g.oh) as real * cfg.scrollerDefaultProportionSingle);
    Box(m.w.x + CDiv(m.w.width - w, 2), m.w.y + CDiv(m.w.height - h, 2), w, h)
  }

  /** Whether the root is moved: only a root that was found among the
    * placed windows, and is opening or reaches into the struts. */
  predicate NeedScroller(e: Env, c: Win, found: bool, cfg: Config) {
    found && !(!c.isOpenAnimation && c.geom.x >= e.m.w.x + cfg.scrollerStructs
               && c.geom.x + c.geom.width <= e.m.w.x + e.m.w.width - cfg.scrollerStructs)
  }

  /** Whether a moved root is centred: always with `scroller_focus_center`;
    * with `scroller_prefer_center` when there is no previous focus or it
    * and the root do not fit side by side. */
  predicate Centre(e: Env, root: Win, prev: Option<Win>, cfg: Config) {
    cfg.scrollerFocusCenter != 0
    || ((prev.None? || prev.value.proportion * e.mcw as real + root.proportion * e.mcw as real
                       > U32(e.m.w.width - 2 * cfg.scrollerStructs - e.g.ih) as real)
        && cfg.scrollerPreferCenter != 0)
  }

  /** The root's request.  `c` is the loop variable of the search: the root
    * when it was found, else the last placed window, whose proportion and
    * x are then used. */
  function RootBox(e: Env, c: Win, root: Win, found: bool, prev: Option<Win>, cfg: Config): (r: Box)
    ensures r.y == e.y && r.height == e.h && r.width == Width(e, c)
    ensures !NeedScroller(e, c, found, cfg) ==> r.x == c.geom.x
    ensures NeedScroller(e, c, found, cfg) && Centre(e, root, prev, cfg) ==>
              r.x == e.m.w.x + CDiv(e.m.w.width - Width(e, c), 2)
  {
    var w := Width(e, c);
    var x :=
      if !NeedScroller(e, c, found, cfg) then c.geom.x
      else if Centre(e, root, prev, cfg) then e.m.w.x + CDiv(e.m.w.width - w, 2)
      else if root.geom.x > e.m.w.x + CDiv(e.m.w.width, 2) then
        Trunc(e.m.w.x as real + (e.m.w.width as real - root.proportion * e.mcw as real - cfg.scrollerStructs as real))
      else e.m.w.x + cfg.scrollerStructs;
    Box(x, e.y, w, e.h)
  }

  /** The request of the window at position `p` left of the root: its
    * width, ending one inner gap before the settled left edge of the
    * window to its right. */
  function LeftAt(e: Env, cs: seq<Win>, f: nat, root: Box, p: nat): Box
    requires p <= f < |cs|
    decreases f - p
  {
    if p == f then root
    else
      LeftOf(e, cs[p], SettleIn(e, cs[p + 1], LeftAt(e, cs, f, root, p + 1)))
  }

  /** A window's request ending one inner gap before `nb`, the settled
    * geometry of the window to its right. */
  function LeftOf(e: Env, w: Win, nb: Box): (r: Box)
    ensures r.width == Width(e, w)
  {
    Box(I32(nb.x - e.g.ih - Width(e, w)), e.y, Width(e, w), e.h)
  }

  /** A window's request starting one inner gap after `nb`, the settled
    * geometry of the window to its left. */
  function RightOf(e: Env, w: Win, nb: Box): (r: Box)
    ensures r.width == Width(e, w)
  {
    Box(I32(nb.x + e.g.ih + nb.width), e.y, Width(e, w), e.h)
  }

  /** The request of the window at position `p` right of the root: its
    * width, starting one inner gap after the settled right edge of the
    * window to its left. */
  function RightAt(e: Env, cs: seq<Win>, f: nat, root: Box, p: nat): Box
    requires f <= p < |cs|
    decreases p
  {
    if p == f then root
    else
      RightOf(e, cs[p], SettleIn(e, cs[p - 1], RightAt(e, cs, f, root, p - 1)))
  }

  function Strip(e: Env, cs: seq<Win>, f: nat, root: Box): (r: seq<Box>)
    requires f < |cs|
    ensures |r| == |cs|
  {
    seq(|cs|, p requires 0 <= p < |cs| => if p <= f then LeftAt(e, cs, f, root, p) else RightAt(e, cs, f, root, p))
  }

  function Windows(ws: seq<Win>, temp: seq<nat>): (cs: seq<Win>)
    requires forall p :: 0 <= p < |temp| ==> temp[p] < |ws|
    ensures |cs| == |temp| && forall p :: 0 <= p < |temp| ==> cs[p] == ws[temp[p]]
  {
    seq(|temp|, p requires 0 <= p < |temp| => ws[temp[p]])
  }

  function IndexOf(temp: seq<nat>, x: nat): (r: Option<nat>)
    ensures r.Some? ==> r.value < |temp| && temp[r.value] == x && forall p :: 0 <= p < r.value ==> temp[p] != x
    ensures r.None? ==> forall p :: 0 <= p < |temp| ==> temp[p] != x
  {
    if |temp| == 0 then None
    else if temp[0] == x then Some(0)
    else match IndexOf(temp[1..], x)
      case None => None
      case Some(p) => Some(p + 1)
  }

  /** The requests of `scroller(m)`, in `tempClients` order: none without
    * windows or without a root, one centred box for a single window, else
    * the strip around the root. */
  function Plan(ws: seq<Win>, m: LMon, cfg: Config, sgeom: Box, sel: Option<nat>, prevsel: Option<nat>): seq<Box>
    requires sel.Some? ==> sel.value < |ws|
    requires prevsel.Some? ==> prevsel.value < |ws|
  {
    var temp := Candidates(ws, m);
    var n := |temp|;
    if n == 0 then []
    else if n == 1 then [SingleBox(m, cfg)]
    else match ChooseRoot(ws, sel, prevsel, CentreOf(ws, m))
      case None => []
      case Some(root) => RootStrip(ws, m, cfg, sgeom, temp, root, prevsel)
  }

  /** The strip around a chosen root `root` (a list index). */
  function RootStrip(ws: seq<Win>, m: LMon, cfg: Config, sgeom: Box, temp: seq<nat>, root: nat,
                     prevsel: Option<nat>): (r: seq<Box>)
    requires 0 < |temp| && root < |ws| && forall p :: 0 <= p < |temp| ==> temp[p] < |ws|
    requires prevsel.Some? ==> prevsel.value < |ws|
    ensures |r| == |temp|
  {
    var e := MakeEnv(m, cfg, sgeom);
    var cs := Windows(ws, temp);
    var at := IndexOf(temp, root);
    var f := if at.Some? then at.value else 0;
    var c := if at.Some? then cs[f] else cs[|temp| - 1];
    var prev := if prevsel.Some? then Some(ws[prevsel.value]) else None;
    Strip(e, cs, f, RootBox(e, c, ws[root], at.Some?, prev, cfg))
  }

  /** `scroller(m)`: the placed windows (`tempClients`) and the request each
    * gets, in that order.  `sel` and `prevsel` are `m->sel` and
    * `m->prevsel` as list indices. */
  method ScrollerLayout(ws: seq<Win>, m: LMon, cfg: Config, sgeom: Box, sel: Option<nat>, prevsel: Option<nat>)
    returns (temp: seq<nat>, reqs: seq<Box>)
    requires sel.Some? ==> sel.value < |ws|
    requires prevsel.Some? ==> prevsel.value < |ws|
    ensures temp == Candidates(ws, m)
    ensures reqs == Plan(ws, m, cfg, sgeom, sel, prevsel)
  {
    temp := CollectCandidates(ws, m);
    var n := |temp|;
    if n == 0 {
      return temp, [];
    }
    if n == 1 {
      return temp, [SingleBox(m, cfg)];
    }
    var root := PickRoot(ws, m, sel, prevsel);
    if root.None? {
      return temp, [];
    }
    reqs := PlaceAround(ws, m, cfg, sgeom, temp, root.value, prevsel);
  }

  /** The root choice of `scroller`: `m->sel`, else `m->prevsel`, else
    * `center_select`. */
  method PickRoot(ws: seq<Win>, m: LMon, sel: Option<nat>, prevsel: Option<nat>) returns (root: Option<nat>)
    requires sel.Some? ==> sel.value < |ws|
    requires prevsel.Some? ==> prevsel.value < |ws|
    ensures root == ChooseRoot(ws, sel, prevsel, CentreOf(ws, m))
  {
    if sel.Some? && RootCandidate(ws[sel.value]) {
      root := sel;
    } else if prevsel.Some? && RootCandidate(ws[prevsel.value]) {
      root := prevsel;
    } else {
      root := CenterSelect(ws, m);
    }
  }

  /** Finds the root among the placed windows, builds its request and lays
    * out the strip around it. */
  method PlaceAround(ws: seq<Win>, m: LMon, cfg: Config, sgeom: Box, temp: seq<nat>, root: nat,
                     prevsel: Option<nat>) returns (reqs: seq<Box>)
    requires 0 < |temp| && root < |ws| && forall p :: 0 <= p < |temp| ==> temp[p] < |ws|
    requires prevsel.Some? ==> prevsel.value < |ws|
    ensures reqs == RootStrip(ws, m, cfg, sgeom, temp, root, prevsel)
  {
    var e := MakeEnv(m, cfg, sgeom);
    var cs := Windows(ws, temp);
    var f, found := FindRoot(temp, root);
    IndexOfFirst(temp, root, f, found);
    var c := if found then cs[f] else cs[|temp| - 1];
    var prev := if prevsel.Some? then Some(ws[prevsel.value]) else None;
    var box := RootBox(e, c, ws[root], found, prev, cfg);
    reqs := PlaceStrip(e, cs, f, box);
  }

  /** A first-occurrence search agrees with `IndexOf`. */
  lemma IndexOfFirst(temp: seq<nat>, x: nat, f: nat, found: bool)
    requires found ==> f < |temp| && temp[f] == x && forall p :: 0 <= p < f ==> temp[p] != x
    requires !found ==> forall p :: 0 <= p < |temp| ==> temp[p] != x
    ensures IndexOf(temp, x) == if found then Some(f) else None
  {
  }

  /** The three placement steps: the root, then leftwards from it, then
    * rightwards, every step reading the settled geometry of the window
    * next to it (what `resize` just left in its `geom`). */
  method PlaceStrip(e: Env, cs: seq<Win>, f: nat, root: Box) returns (reqs: seq<Box>)
    requires f < |cs|
    ensures reqs == Strip(e, cs, f, root)
  {
    reqs := PlaceLeft(e, cs, f, root);
    reqs := PlaceRight(e, cs, f, root, reqs);
    assert forall p :: 0 <= p < |cs| ==> reqs[p] == Strip(e, cs, f, root)[p];
  }

  /** The root and the windows left of it, from the root outwards. */
  method PlaceLeft(e: Env, cs: seq<Win>, f: nat, root: Box) returns (reqs: seq<Box>)
    requires f < |cs|
    ensures |reqs| == |cs|
    ensures forall p :: 0 <= p <= f ==> reqs[p] == LeftAt(e, cs, f, root, p)
  {
    reqs := seq(|cs|, _ => root);
    var p: nat := f;
    while p > 0
      invariant p <= f && |reqs| == |cs|
      invariant forall q :: p <= q <= f ==> reqs[q] == LeftAt(e, cs, f, root, q)
    {
      p := p - 1;
      var box := StepLeft(e, cs, f, root, p, reqs[p + 1]);
      reqs := reqs[p := box];
    }
  }

  /** One step leftwards: the request of window `p`, from where its right
    * neighbour settles on its own request. */
  method StepLeft(e: Env, cs: seq<Win>, f: nat, root: Box, p: nat, next: Box) returns (box: Box)
    requires p < f < |cs| && next == LeftAt(e, cs, f, root, p + 1)
    ensures box == LeftAt(e, cs, f, root, p)
  {
    var last := SettleIn(e, cs[p + 1], next);
    box := LeftOf(e, cs[p], last);
  }

  lemma RightAtStep(e: Env, cs: seq<Win>, f: nat, root: Box, p: nat)
    requires f < p < |cs|
    ensures RightAt(e, cs, f, root, p) == RightOf(e, cs[p], SettleIn(e, cs[p - 1], RightAt(e, cs, f, root, p - 1)))
  {
  }

  /** The windows right of the root, from the root outwards. */
  method PlaceRight(e: Env, cs: seq<Win>, f: nat, root: Box, reqs0: seq<Box>) returns (reqs: seq<Box>)
    requires f < |cs| && |reqs0| == |cs|
    requires forall p :: 0 <= p <= f ==> reqs0[p] == LeftAt(e, cs, f, root, p)
    ensures |reqs| == |cs|
    ensures forall p :: 0 <= p <= f ==> reqs[p] == LeftAt(e, cs, f, root, p)
    ensures forall p :: f < p < |cs| ==> reqs[p] == RightAt(e, cs, f, root, p)
  {
    reqs := reqs0;
    var p := f + 1;
    while p < |cs|
      invariant f < p <= |cs| && |reqs| == |cs|
      invariant forall q :: 0 <= q <= f ==> reqs[q] == LeftAt(e, cs, f, root, q)
      invariant forall q :: f < q < p ==> reqs[q] == RightAt(e, cs, f, root, q)
    {
      var box := StepRight(e, cs, f, root, p, reqs[p - 1]);
      reqs := reqs[p := box];
      p := p + 1;
    }
  }

  /** One step rightwards: the request of window `p`, from where its left
    * neighbour settles on its own request. */
  method StepRight(e: Env, cs: seq<Win>, f: nat, root: Box, p: nat, prev: Box) returns (box: Box)
    requires f < p < |cs|
    requires prev == (if p - 1 == f then LeftAt(e, cs, f, root, f) else RightAt(e, cs, f, root, p - 1))
    ensures box == RightAt(e, cs, f, root, p)
  {
    RightAtStep(e, cs, f, root, p);
    var last := SettleIn(e, cs[p - 1], prev);
    box := RightOf(e, cs[p], last);
  }

  /** The geometry window `p` of the strip settles on. */
  function Settled(e: Env, cs: seq<Win>, f: nat, root: Box, p: nat): Box
    requires f < |cs| && p < |cs|
  {
    SettleIn(e, cs[p], Strip(e, cs, f, root)[p])
  }

  /** Every window of the strip is mapped and tiled on a scroller monitor,
    * so `resize` keeps the position it is given. */
  predicate Free(e: Env, cs: seq<Win>) {
    e.m.scroller && forall p :: 0 <= p < |cs| ==> cs[p].mapped && !cs[p].isfloating
  }

  /** No edge computed by the placement wraps around as a 32-bit value, and
    * every window left of the root is at least its minimum width. */
  predicate NoWrap(e: Env, cs: seq<Win>, f: nat, root: Box)
    requires f < |cs|
  {
    (forall p :: 0 <= p < f ==> Width(e, cs[p]) >= MinSide(cs[p].bw)
                                && InI32(Settled(e, cs, f, root, p + 1).x - e.g.ih - Width(e, cs[p])))
    && (forall p :: f <= p < |cs| - 1 ==> InI32(Settled(e, cs, f, root, p).x + e.g.ih + Settled(e, cs, f, root, p).width))
  }

  /** Every request of the strip lies in one row: the root's row, with the
    * height and width derived from `max_client_width`. */
  lemma StripRow(e: Env, cs: seq<Win>, f: nat, root: Box, p: nat)
    requires p < |cs| && f < |cs| && root.y == e.y && root.height == e.h
    ensures Strip(e, cs, f, root)[p].y == e.y && Strip(e, cs, f, root)[p].height == e.h
    ensures p != f ==> Strip(e, cs, f, root)[p].width == Width(e, cs[p])
  {
  }

  /** `resize` of a mapped tiled window under the scroller keeps the
    * requested position and only raises the size to the minimum. */
  lemma FreeSettle(e: Env, w: Win, b: Box)
    requires e.m.scroller && w.mapped && !w.isfloating
    ensures SettleIn(e, w, b) == Box(b.x, b.y, Max(MinSide(w.bw), b.width), Max(MinSide(w.bw), b.height))
  {
  }

  lemma StripLeft(e: Env, cs: seq<Win>, f: nat, root: Box, p: nat)
    requires p <= f < |cs|
    ensures Strip(e, cs, f, root)[p] == LeftAt(e, cs, f, root, p)
  {
  }

  lemma StripRight(e: Env, cs: seq<Win>, f: nat, root: Box, p: nat)
    requires f <= p < |cs|
    ensures Strip(e, cs, f, root)[p] == RightAt(e, cs, f, root, p)
  {
  }

  /** Left of the root, a window ends one inner gap before its right
    * neighbour begins. */
  lemma AdjacentLeft(e: Env, cs: seq<Win>, f: nat, root: Box, p: nat)
    requires p < f < |cs| && e.m.scroller && cs[p].mapped && !cs[p].isfloating
    requires Width(e, cs[p]) >= MinSide(cs[p].bw)
    requires InI32(Settled(e, cs, f, root, p + 1).x - e.g.ih - Width(e, cs[p]))
    ensures Settled(e, cs, f, root, p).x + Settled(e, cs, f, root, p).width + e.g.ih == Settled(e, cs, f, root, p + 1).x
  {
    var nb := Settled(e, cs, f, root, p + 1);
    StripLeft(e, cs, f, root, p + 1);
    StripLeft(e, cs, f, root, p);
    assert Strip(e, cs, f, root)[p] == LeftOf(e, cs[p], nb);
    FreeSettle(e, cs[p], LeftOf(e, cs[p], nb));
  }

  /** Right of the root, a window begins one inner gap after its left
    * neighbour ends. */
  lemma AdjacentRight(e: Env, cs: seq<Win>, f: nat, root: Box, p: nat)
    requires f <= p && p + 1 < |cs| && e.m.scroller && cs[p + 1].mapped && !cs[p + 1].isfloating
    requires InI32(Settled(e, cs, f, root, p).x + e.g.ih + Settled(e, cs, f, root, p).width)
    ensures Settled(e, cs, f, root, p).x + Settled(e, cs, f, root, p).width + e.g.ih == Settled(e, cs, f, root, p + 1).x
  {
    var nb := Settled(e, cs, f, root, p);
    StripRight(e, cs, f, root, p);
    StripRight(e, cs, f, root, p + 1);
    RightAtStep(e, cs, f, root, p + 1);
    assert Strip(e, cs, f, root)[p + 1] == RightOf(e, cs[p + 1], nb);
    FreeSettle(e, cs[p + 1], RightOf(e, cs[p + 1], nb));
  }

  /** Neighbours in the strip abut: one inner gap separates the right edge
    * of window `p` from the left edge of window `p + 1`. */
  lemma Adjacent(e: Env, cs: seq<Win>, f: nat, root: Box, p: nat)
    requires f < |cs| && p + 1 < |cs| && Free(e, cs) && NoWrap(e, cs, f, root)
    ensures Settled(e, cs, f, root, p).x + Settled(e, cs, f, root, p).width + e.g.ih == Settled(e, cs, f, root, p + 1).x
  {
    if p < f {
      AdjacentLeft(e, cs, f, root, p);
    } else {
      AdjacentRight(e, cs, f, root, p);
    }
  }

  /** Boxes laid left to right, each `gap` apart from the next, with
    * positive widths: each ends at least `gap` before any later one. */
  lemma {:induction false} ChainDisjoint(bs: seq<Box>, gap: int, p: nat, q: nat)
    requires gap >= 0 && p < q < |bs|
    requires forall k :: 0 <= k < |bs| ==> bs[k].width >= 1
    requires forall k :: 0 <= k < |bs| - 1 ==> bs[k].x + bs[k].width + gap == bs[k + 1].x
    ensures bs[p].x + bs[p].width + gap <= bs[q].x
    decreases q - p
  {
    if p + 1 < q {
      ChainDisjoint(bs, gap, p + 1, q);
    }
  }

  /** The settled strip, in order. */
  function SettledStrip(e: Env, cs: seq<Win>, f: nat, root: Box): (r: seq<Box>)
    requires f < |cs|
    ensures |r| == |cs| && forall p :: 0 <= p < |cs| ==> r[p] == Settled(e, cs, f, root, p)
  {
    seq(|cs|, p requires 0 <= p < |cs| => Settled(e, cs, f, root, p))
  }

  /** The strip never overlaps itself: every window ends at least one inner
    * gap before any window after it begins. */
  lemma StripDisjoint(e: Env, cs: seq<Win>, f: nat, root: Box, p: nat, q: nat)
    requires f < |cs| && p < q < |cs| && Free(e, cs) && NoWrap(e, cs, f, root) && e.g.ih >= 0
    ensures Settled(e, cs, f, root, p).x + Settled(e, cs, f, root, p).width + e.g.ih <= Settled(e, cs, f, root, q).x
  {
    var bs := SettledStrip(e, cs, f, root);
    forall k | 0 <= k < |bs| - 1
      ensures bs[k].x + bs[k].width + e.g.ih == bs[k + 1].x
    {
      Adjacent(e, cs, f, root, k);
    }
    ChainDisjoint(bs, e.g.ih, p, q);
  }

  /** When the root is not among the placed windows, the search leaves the
    * last placed window in `c`: the first window gets that window's width
    * and keeps its x. */
  lemma RootMissingUsesLast(ws: seq<Win>, m: LMon, cfg: Config, sgeom: Box, temp: seq<nat>, root: nat,
                            prevsel: Option<nat>)
    requires 0 < |temp| && root < |ws| && forall p :: 0 <= p < |temp| ==> temp[p] < |ws|
    requires prevsel.Some? ==> prevsel.value < |ws|
    requires forall p :: 0 <= p < |temp| ==> temp[p] != root
    ensures var r := RootStrip(ws, m, cfg, sgeom, temp, root, prevsel)[0];
            r.width == Width(MakeEnv(m, cfg, sgeom), ws[temp[|temp| - 1]]) && r.x == ws[temp[|temp| - 1]].geom.x
  {
  }
}
