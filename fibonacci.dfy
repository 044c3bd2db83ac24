/** `fibonacci(m, s)`, behind `spiral` (s = 0) and `dwindle` (s = 1).  A
  * first pass walks the placed windows with an unsigned cursor rectangle
  * that is halved in a four-phase rotation and writes each window's
  * geometry directly; a second pass trims one inner gap off every edge
  * that touches another placed window and hands the result to `resize`. */
module Fibonacci {
  import opened CNum
  import opened Geometry
  import opened Settings
  import opened LayoutBase

  /** The windows both passes visit. */
  predicate Eligible(w: Win, m: LMon) {
    VisibleOn(w, m) && !w.isfloating && !w.iskilling && !w.isfullscreen && !w.ismaxmizescreen && !w.tagouting
  }

  function Flags(ws: seq<Win>, m: LMon): (r: seq<bool>)
    ensures |r| == |ws| && forall k :: 0 <= k < |ws| ==> r[k] == Eligible(ws[k], m)
  {
    seq(|ws|, k requires 0 <= k < |ws| => Eligible(ws[k], m))
  }

  /** What stays fixed during a pass: the monitor, its gaps, the number of
    * placed windows and the variant (`dwindle` is true for s = 1). */
  datatype Env = Env(m: LMon, g: Gaps, n: nat, dwindle: bool)

  /** The cursor of the first pass: the count `i` of windows that split
    * the area so far and the unsigned rectangle `nx`, `ny`, `nw`, `nh`. */
  datatype Cursor = Cursor(i: nat, nx: int, ny: int, nw: int, nh: int)

  /** The cursor starts as the window area inside the outer gaps. */
  function Start(e: Env): Cursor {
    Cursor(0, U32(e.m.w.x + e.g.oh), U32(e.m.w.y + e.g.ov), U32(e.m.w.width - 2 * e.g.oh), U32(e.m.w.height - 2 * e.g.ov))
  }

  /** A window splits the area only when the side it halves (height for
    * odd `i`, width for even `i`) is more than twice its border. */
  predicate Splits(c: Cursor, bw: nat) {
    (c.i % 2 == 1 && c.nh / 2 > U32(2 * bw)) || (c.i % 2 == 0 && c.nw / 2 > U32(2 * bw))
  }

  /** A length's share `f` (a factor stored into `unsigned int`). */
  function Share(len: int, f: real): (r: int)
    ensures 0 <= r < TWO_32
  {
    RealToU32(len as real * f)
  }

  /** Before the last window, the side is halved (the second window's
    * height is its share `smfact` instead) and spiral moves the cursor on
    * phases 2 and 3. */
  function Halve(e: Env, c: Cursor): Cursor {
    if c.i + 1 < e.n then
      var h :=
        if c.i % 2 == 1 then
          if c.i == 1 then c.(nh := Share(c.nh, e.m.ptSmfact))
          else c.(nh := U32(c.nh - e.g.iv) / 2)
        else c.(nw := U32(c.nw - e.g.ih) / 2);
      if c.i % 4 == 2 && !e.dwindle then h.(nx := U32(h.nx + h.nw + e.g.ih))
      else if c.i % 4 == 3 && !e.dwindle then h.(ny := U32(h.ny + h.nh + e.g.iv))
      else h
    else c
  }

  /** The phase move: down (dwindle) or up (spiral), right, down, then
    * right (dwindle) or left (spiral), one gap past the cursor. */
  function Turn(e: Env, c: Cursor): Cursor {
    if c.i % 4 == 0 then
      if e.dwindle then c.(ny := U32(c.ny + c.nh + e.g.iv)) else c.(ny := U32(c.ny - (c.nh + e.g.iv)))
    else if c.i % 4 == 1 then c.(nx := U32(c.nx + c.nw + e.g.ih))
    else if c.i % 4 == 2 then c.(ny := U32(c.ny + c.nh + e.g.iv))
    else if e.dwindle then c.(nx := U32(c.nx + c.nw + e.g.ih)) else c.(nx := U32(c.nx - (c.nw + e.g.ih)))
  }

  /** The corrections for the first three windows, then the count moves
    * on: the first takes its share `mfact` of the width (unless it is
    * alone) at the top; the second the rest of the width; the third the
    * rest of the height. */
  function Settle3(e: Env, c: Cursor): Cursor {
    var x :=
      if c.i == 0 then
        (if e.n != 1 then c.(nw := Share(U32(e.m.w.width - 2 * e.g.oh), e.m.ptMfact)) else c)
          .(ny := U32(e.m.w.y + e.g.ov))
      else if c.i == 1 then c.(nw := U32(e.m.w.width - 2 * e.g.oh - c.nw - e.g.ih))
      else if c.i == 2 then c.(nh := U32(e.m.w.height - 2 * e.g.ov - c.nh - e.g.iv))
      else c;
    x.(i := c.i + 1)
  }

  /** One placed window's step of the cursor. */
  function Step(e: Env, c: Cursor, bw: nat): (r: Cursor)
    ensures r.i == if Splits(c, bw) then c.i + 1 else c.i
  {
    if Splits(c, bw) then Settle3(e, Turn(e, Halve(e, c))) else c
  }

  /** The geometry a window receives from the cursor (unsigned values
    * stored into `int` fields). */
  function Place(c: Cursor): Box {
    Box(I32(c.nx), I32(c.ny), I32(c.nw), I32(c.nh))
  }

  /** The cursor and the geometries after the first pass has visited the
    * first `k` windows of the list. */
  datatype Pass = Pass(cur: Cursor, geo: seq<Box>)

  function FirstPass(ws: seq<Win>, e: Env, bw: nat, k: nat): (r: Pass)
    requires k <= |ws|
    ensures |r.geo| == k
  {
    if k == 0 then Pass(Start(e), [])
    else
      var p := FirstPass(ws, e, bw, k - 1);
      if Eligible(ws[k - 1], e.m) then
        var c := Step(e, p.cur, bw);
        Pass(c, p.geo + [Place(c)])
      else Pass(p.cur, p.geo + [ws[k - 1].geom])
  }

  /** The first pass: every placed window gets the rectangle of the cursor
    * after its step; every other window keeps its geometry. */
  method PlaceAll(ws: seq<Win>, e: Env, bw: nat) returns (geo: seq<Box>)
    ensures geo == FirstPass(ws, e, bw, |ws|).geo
  {
    var cur := Start(e);
    geo := [];
    var k := 0;
    while k < |ws|
      invariant k <= |ws| && FirstPass(ws, e, bw, k) == Pass(cur, geo)
    {
      if Eligible(ws[k], e.m) {
        cur := Step(e, cur, bw);
        geo := geo + [Place(cur)];
      } else {
        geo := geo + [ws[k].geom];
      }
      k := k + 1;
    }
  }

  /** `b` starts where `a` ends on the same row. */
  predicate AbutsRight(a: Box, b: Box) {
    a.y == b.y && a.x + a.width == b.x
  }

  /** `b` starts where `a` ends in the same column. */
  predicate AbutsBelow(a: Box, b: Box) {
    a.x == b.x && a.y + a.height == b.y
  }

  /** Another placed window touches the right edge of window `c`. */
  predicate HasRight(geo: seq<Box>, flags: seq<bool>, c: nat)
    requires |flags| == |geo| && c < |geo|
  {
    exists j :: 0 <= j < |geo| && j != c && flags[j] && AbutsRight(geo[c], geo[j])
  }

  /** Another placed window touches the bottom edge of window `c`. */
  predicate HasBelow(geo: seq<Box>, flags: seq<bool>, c: nat)
    requires |flags| == |geo| && c < |geo|
  {
    exists j :: 0 <= j < |geo| && j != c && flags[j] && AbutsBelow(geo[c], geo[j])
  }

  /** The scan over all other placed windows for a touching neighbour:
    * `right_gap` is the inner horizontal gap exactly when one touches the
    * right edge, `bottom_gap` the inner vertical gap exactly when one
    * touches the bottom edge. */
  method NeighbourGaps(geo: seq<Box>, flags: seq<bool>, c: nat, g: Gaps) returns (rightGap: int, bottomGap: int)
    requires |flags| == |geo| && c < |geo|
    ensures rightGap == if HasRight(geo, flags, c) then g.ih else 0
    ensures bottomGap == if HasBelow(geo, flags, c) then g.iv else 0
  {
    rightGap, bottomGap := 0, 0;
    var j := 0;
    while j < |geo|
      invariant j <= |geo|
      invariant rightGap == if exists q :: 0 <= q < j && q != c && flags[q] && AbutsRight(geo[c], geo[q]) then g.ih else 0
      invariant bottomGap == if exists q :: 0 <= q < j && q != c && flags[q] && AbutsBelow(geo[c], geo[q]) then g.iv else 0
    {
      if flags[j] && j != c {
        if AbutsRight(geo[c], geo[j]) {
          rightGap := g.ih;
        }
        if AbutsBelow(geo[c], geo[j]) {
          bottomGap := g.iv;
        }
      }
      j := j + 1;
    }
  }

  /** The rectangle the second pass requests for window `c`: its geometry
    * less the inner gap on each touched edge. */
  function Trimmed(geo: seq<Box>, flags: seq<bool>, c: nat, g: Gaps): (r: Box)
    requires |flags| == |geo| && c < |geo|
    ensures r.x == geo[c].x && r.y == geo[c].y
  {
    var b := geo[c];
    Box(b.x, b.y, I32(b.width - (if HasRight(geo, flags, c) then g.ih else 0)),
                  I32(b.height - (if HasBelow(geo, flags, c) then g.iv else 0)))
  }

  /** What `resize` leaves for window `k` (its first-pass border width and
    * geometry in place) given request `b`; placed windows are tiled, so
    * the monitor's window area bounds them. */
  function Resized(ws: seq<Win>, e: Env, bw: nat, geo: seq<Box>, k: nat, b: Box): Box
    requires |geo| == |ws| && k < |ws|
  {
    Settle(ws[k].(bw := bw, geom := geo[k]), b, e.m, e.m.w)
  }

  /** The geometries after the second pass has handled the first `k`
    * windows; each reads the geometries the earlier ones settled on. */
  function SecondPass(ws: seq<Win>, e: Env, bw: nat, flags: seq<bool>, geo0: seq<Box>, k: nat): (r: seq<Box>)
    requires |flags| == |ws| && |geo0| == |ws| && k <= |ws|
    ensures |r| == |ws|
    ensures forall j :: k <= j < |ws| ==> r[j] == geo0[j]
  {
    if k == 0 then geo0
    else
      var g := SecondPass(ws, e, bw, flags, geo0, k - 1);
      if flags[k - 1] then g[k - 1 := Resized(ws, e, bw, g, k - 1, Trimmed(g, flags, k - 1, e.g))]
      else g
  }

  /** The second pass. */
  method TrimAll(ws: seq<Win>, e: Env, bw: nat, flags: seq<bool>, geo0: seq<Box>) returns (geo: seq<Box>)
    requires |flags| == |ws| && |geo0| == |ws|
    ensures geo == SecondPass(ws, e, bw, flags, geo0, |ws|)
  {
    geo := geo0;
    var k := 0;
    while k < |ws|
      invariant k <= |ws| && geo == SecondPass(ws, e, bw, flags, geo0, k)
    {
      if flags[k] {
        var rightGap, bottomGap := NeighbourGaps(geo, flags, k, e.g);
        var b := Box(geo[k].x, geo[k].y, I32(geo[k].width - rightGap), I32(geo[k].height - bottomGap));
        geo := geo[k := Resized(ws, e, bw, geo, k, b)];
      }
      k := k + 1;
    }
  }

  function MakeEnv(ws: seq<Win>, m: LMon, cfg: Config, dwindle: bool): (e: Env)
    ensures e.n == CountTrue(Flags(ws, m))
  {
    Env(m, CurGaps(m, cfg), CountTrue(Flags(ws, m)), dwindle)
  }

  /** The geometry of every window of the list after `fibonacci`; nothing
    * changes without placed windows. */
  function Layout(ws: seq<Win>, m: LMon, cfg: Config, dwindle: bool): (r: seq<Box>)
    ensures |r| == |ws|
  {
    var e := MakeEnv(ws, m, cfg, dwindle);
    var bw := BorderWidth(m, cfg);
    if e.n == 0 then seq(|ws|, k requires 0 <= k < |ws| => ws[k].geom)
    else SecondPass(ws, e, bw, Flags(ws, m), FirstPass(ws, e, bw, |ws|).geo, |ws|)
  }

  /** `fibonacci(m, s)`: the border width the placed windows get and the
    * geometry of every window afterwards. */
  method FibonacciLayout(ws: seq<Win>, m: LMon, cfg: Config, dwindle: bool) returns (bw: nat, geo: seq<Box>)
    ensures bw == BorderWidth(m, cfg)
    ensures geo == Layout(ws, m, cfg, dwindle)
  {
    var flags := Flags(ws, m);
    var n := CountEligible(flags);
    bw := BorderWidth(m, cfg);
    if n == 0 {
      geo := seq(|ws|, k requires 0 <= k < |ws| => ws[k].geom);
      return;
    }
    var e := Env(m, CurGaps(m, cfg), n, dwindle);
    geo := PlaceAll(ws, e, bw);
    geo := TrimAll(ws, e, bw, flags, geo);
  }

  /** A window alone gets the whole area inside the outer gaps, whether or
    * not it splits. */
  lemma AloneFillsArea(e: Env, bw: nat)
    requires e.n == 1
    ensures Place(Step(e, Start(e), bw)) == Place(Start(e))
  {
  }

  /** Two windows that both split sit side by side: the first takes its
    * share `mfact` of the width inside the outer gaps, the second the rest
    * after one inner gap, both at the top with the whole inner height. */
  lemma TwoWindowsSideBySide(e: Env, bw0: nat, bw1: nat)
    requires e.n == 2 && Splits(Start(e), bw0) && Splits(Step(e, Start(e), bw0), bw1)
    ensures var mw := Share(U32(e.m.w.width - 2 * e.g.oh), e.m.ptMfact);
            var c1 := Step(e, Start(e), bw0);
            var c2 := Step(e, c1, bw1);
            c1 == Cursor(1, U32(e.m.w.x + e.g.oh), U32(e.m.w.y + e.g.ov), mw, U32(e.m.w.height - 2 * e.g.ov))
            && c2 == Cursor(2, U32(U32(e.m.w.x + e.g.oh) + mw + e.g.ih), U32(e.m.w.y + e.g.ov),
                            U32(e.m.w.width - 2 * e.g.oh - mw - e.g.ih), U32(e.m.w.height - 2 * e.g.ov))
  {
    FirstOfTwo(e, bw0);
    SecondOfTwo(e, Step(e, Start(e), bw0), bw1);
  }

  lemma FirstOfTwo(e: Env, bw: nat)
    requires e.n == 2 && Splits(Start(e), bw)
    ensures Step(e, Start(e), bw)
         == Cursor(1, U32(e.m.w.x + e.g.oh), U32(e.m.w.y + e.g.ov),
                   Share(U32(e.m.w.width - 2 * e.g.oh), e.m.ptMfact), U32(e.m.w.height - 2 * e.g.ov))
  {
    FirstHalve(e, Start(e));
    FirstTurn(e, Halve(e, Start(e)));
  }

  lemma FirstHalve(e: Env, c: Cursor)
    requires e.n == 2 && c.i == 0
    ensures Halve(e, c) == c.(nw := U32(c.nw - e.g.ih) / 2)
  {
  }

  lemma FirstTurn(e: Env, c: Cursor)
    requires e.n == 2 && c.i == 0
    ensures Settle3(e, Turn(e, c))
         == Cursor(1, c.nx, U32(e.m.w.y + e.g.ov), Share(U32(e.m.w.width - 2 * e.g.oh), e.m.ptMfact), c.nh)
  {
    var t := Turn(e, c);
    assert t == c.(ny := t.ny);
    Settle3First(e, t);
  }

  lemma Settle3First(e: Env, c: Cursor)
    requires c.i == 0 && e.n != 1
    ensures Settle3(e, c)
         == Cursor(1, c.nx, U32(e.m.w.y + e.g.ov), Share(U32(e.m.w.width - 2 * e.g.oh), e.m.ptMfact), c.nh)
  {
  }

  lemma SecondOfTwo(e: Env, c: Cursor, bw: nat)
    requires e.n == 2 && c.i == 1 && Splits(c, bw)
    ensures Step(e, c, bw) == Cursor(2, U32(c.nx + c.nw + e.g.ih), c.ny, U32(e.m.w.width - 2 * e.g.oh - c.nw - e.g.ih), c.nh)
  {
    assert Halve(e, c) == c;
    assert Turn(e, c) == c.(nx := U32(c.nx + c.nw + e.g.ih));
  }

  /** Without wrap-around, the two windows share the inner width exactly,
    * one inner gap apart, so neither touches the other while that gap is
    * positive and the second pass leaves both alone. */
  lemma TwoWindowsGapApart(e: Env, bw0: nat, bw1: nat)
    requires e.n == 2 && Splits(Start(e), bw0) && Splits(Step(e, Start(e), bw0), bw1)
    requires 0 <= e.g.ih && 0 <= e.m.w.x + e.g.oh && e.m.w.x + e.m.w.width - e.g.oh < TWO_31
    requires 0 <= e.m.w.y + e.g.ov < TWO_31
    requires 0 <= e.m.w.width - 2 * e.g.oh - Share(U32(e.m.w.width - 2 * e.g.oh), e.m.ptMfact) - e.g.ih
    ensures var a := Place(Step(e, Start(e), bw0));
            var b := Place(Step(e, Step(e, Start(e), bw0), bw1));
            a.x + a.width + e.g.ih == b.x && a.y == b.y
            && a.width + e.g.ih + b.width == e.m.w.width - 2 * e.g.oh
            && (0 < e.g.ih ==> !AbutsRight(a, b))
  {
    TwoWindowsSideBySide(e, bw0, bw1);
    var mw := Share(U32(e.m.w.width - 2 * e.g.oh), e.m.ptMfact);
    assert 0 <= e.m.w.width - 2 * e.g.oh < TWO_32;
    assert U32(e.m.w.x + e.g.oh) == e.m.w.x + e.g.oh;
    assert U32(e.m.w.x + e.g.oh + mw + e.g.ih) == e.m.w.x + e.g.oh + mw + e.g.ih;
  }

  /** A window is narrowed by the second pass exactly when another placed
    * window touches its right edge, and shortened exactly when one touches
    * its bottom edge. */
  lemma TrimmedIff(geo: seq<Box>, flags: seq<bool>, c: nat, g: Gaps)
    requires |flags| == |geo| && c < |geo| && 0 < g.ih && 0 < g.iv
    requires InI32(geo[c].width) && InI32(geo[c].width - g.ih) && InI32(geo[c].height) && InI32(geo[c].height - g.iv)
    ensures Trimmed(geo, flags, c, g).width < geo[c].width <==> HasRight(geo, flags, c)
    ensures Trimmed(geo, flags, c, g).height < geo[c].height <==> HasBelow(geo, flags, c)
  {
  }

  /** The second pass only touches placed windows. */
  lemma {:induction false} SecondPassKeepsOthers(ws: seq<Win>, e: Env, bw: nat, flags: seq<bool>, geo0: seq<Box>, k: nat, j: nat)
    requires |flags| == |ws| && |geo0| == |ws| && k <= |ws| && j < |ws| && !flags[j]
    ensures SecondPass(ws, e, bw, flags, geo0, k)[j] == geo0[j]
  {
    if k > 0 {
      SecondPassKeepsOthers(ws, e, bw, flags, geo0, k - 1, j);
    }
  }
}
