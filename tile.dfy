/** `tile`: the first `nmaster` placed windows stack in a master column on
  * the left, the rest in a stack column on the right.  The master count
  * and factor come from the pertag values of the *selected* monitor, not
  * of the monitor being arranged.  Unsigned C arithmetic is kept. */
module Tile {
  import opened CNum
  import opened Opt
  import opened Geometry
  import opened Settings
  import opened LayoutBase

  /** The windows `tile` places. */
  predicate Eligible(w: Win, m: LMon) {
    VisibleOn(w, m) && !w.tagouting && !w.iskilling && !w.isfloating && !w.isfullscreen && !w.ismaxmizescreen
  }

  function Flags(ws: seq<Win>, m: LMon): (r: seq<bool>)
    ensures |r| == |ws| && forall k :: 0 <= k < |ws| ==> r[k] == Eligible(ws[k], m)
  {
    seq(|ws|, k requires 0 <= k < |ws| => Eligible(ws[k], m))
  }

  /** The values fixed before the placement loop: gaps, `ie`, the window
    * count `n`, the master count `nm` (unsigned) and the master width `mw`. */
  datatype Env = Env(m: LMon, g: Gaps, ie: int, n: nat, nm: int, mw: int, sgeom: Box)

  /** `mw`: a share `mfact` of the width plus one inner gap when there are
    * more windows than masters (none without masters), else the whole
    * width between the outer gaps plus one inner gap. */
  function MasterWidth(m: LMon, sel: LMon, g: Gaps, ie: int, n: nat): (mw: int)
    ensures 0 <= mw < TWO_32
  {
    if n > U32(sel.ptNmaster) then
      (if sel.ptNmaster != 0 then RealToU32(U32(m.w.width + g.iv * ie) as real * sel.ptMfact) else 0)
    else U32(m.w.width - 2 * g.ov + g.iv * ie)
  }

  function MakeEnv(ws: seq<Win>, m: LMon, sel: LMon, cfg: Config, sgeom: Box): (e: Env)
    ensures e.m == m && e.n == CountTrue(Flags(ws, m)) && 0 <= e.nm < TWO_32
  {
    var g := CurGaps(m, cfg);
    var ie := if cfg.enablegaps then 1 else 0;
    var n := CountTrue(Flags(ws, m));
    Env(m, g, ie, n, U32(sel.ptNmaster), MasterWidth(m, sel, g, ie, n), sgeom)
  }

  /** The loop state: placed count `i` and the column cursors `my`, `ty`. */
  datatype Cursor = Cursor(i: nat, my: int, ty: int)

  /** The column's left edge and width: masters after the outer gap,
    * `mw` minus one inner gap wide; the stack right of `mw`, the rest of
    * the width minus both outer gaps. */
  function ColumnX(e: Env, col: bool): int {
    if col then I32(e.m.w.x + e.g.ov) else I32(e.m.w.x + e.mw + e.g.ov)
  }

  function ColumnWidth(e: Env, col: bool): int {
    if col then I32(e.mw - e.g.iv * e.ie) else I32(e.m.w.width - e.mw - 2 * e.g.ov)
  }

  /** The windows of the column not yet placed, counting this one. */
  function Remaining(e: Env, i: nat, col: bool): int {
    if col then Min(e.n, e.nm) - i else e.n - i
  }

  /** The height of a window at cursor `at` when `r` windows of its column
    * are left: what remains below the cursor, less the outer gap and
    * `r - 1` inner gaps, divided equally. */
  function Share(e: Env, at: int, r: int): int
    requires r > 0
  {
    I32(U32(e.m.w.height - at - e.g.oh - e.g.ih * e.ie * (r - 1)) / r)
  }

  /** The rectangle requested for the next placed window. */
  function Request(e: Env, c: Cursor): Box
    requires c.i < e.n
  {
    var col := c.i < e.nm;
    var at := if col then c.my else c.ty;
    Box(ColumnX(e, col), I32(e.m.w.y + at), ColumnWidth(e, col), Share(e, at, Remaining(e, c.i, col)))
  }

  /** The cursor after a window of settled height `h`.  The C cursors are
    * unsigned and wrap; they are kept unreduced here, which changes no
    * request (`RequestIgnoresWrap`). */
  function Advance(e: Env, c: Cursor, h: int): Cursor {
    if c.i < e.nm then Cursor(c.i + 1, c.my + h + e.g.ih * e.ie, c.ty)
    else Cursor(c.i + 1, c.my, c.ty + h + e.g.ih * e.ie)
  }

  /** Every use of a cursor reduces it modulo 2^32, so reducing the cursors
    * first yields the same request. */
  lemma RequestIgnoresWrap(e: Env, c: Cursor)
    requires c.i < e.n
    ensures Request(e, Cursor(c.i, U32(c.my), U32(c.ty))) == Request(e, c)
  {
    var col := c.i < e.nm;
    var at := if col then c.my else c.ty;
    I32AddU32(e.m.w.y, at);
    ShareIgnoresWrap(e, at, Remaining(e, c.i, col));
  }

  lemma ShareIgnoresWrap(e: Env, at: int, r: int)
    requires r > 0
    ensures Share(e, U32(at), r) == Share(e, at, r)
  {
    var rest := e.g.oh + e.g.ih * e.ie * (r - 1);
    U32SubU32(e.m.w.height - rest, at);
    assert e.m.w.height - U32(at) - e.g.oh - e.g.ih * e.ie * (r - 1) == e.m.w.height - rest - U32(at);
    assert e.m.w.height - at - e.g.oh - e.g.ih * e.ie * (r - 1) == e.m.w.height - rest - at;
  }

  datatype Placed = Placed(reqs: seq<Option<Box>>, cur: Cursor)

  /** The placement loop over the first `k` windows. */
  function Pass(ws: seq<Win>, e: Env, k: nat): (p: Placed)
    requires k <= |ws| && e.n == CountTrue(Flags(ws, e.m))
    ensures |p.reqs| == k && p.cur.i == CountTrue(Flags(ws, e.m)[..k])
  {
    if k == 0 then Placed([], Cursor(0, e.g.oh, e.g.oh))
    else
      var p := Pass(ws, e, k - 1);
      var w := ws[k - 1];
      CountTrueSnoc(Flags(ws, e.m), k - 1);
      if !Eligible(w, e.m) then Placed(p.reqs + [None], p.cur)
      else
        CountTrueMonotone(Flags(ws, e.m), k, |ws|);
        assert Flags(ws, e.m)[..|ws|] == Flags(ws, e.m);
        var box := Request(e, p.cur);
        Placed(p.reqs + [Some(box)], Advance(e, p.cur, Settle(w, box, e.m, e.sgeom).height))
  }

  /** An eligible window is placed while fewer than `n` have been. */
  lemma RankBelowCount(ws: seq<Win>, m: LMon, k: nat)
    requires k < |ws| && Eligible(ws[k], m)
    ensures CountTrue(Flags(ws, m)[..k]) < CountTrue(Flags(ws, m))
  {
    CountTrueSnoc(Flags(ws, m), k);
    CountTrueMonotone(Flags(ws, m), k + 1, |ws|);
    assert Flags(ws, m)[..|ws|] == Flags(ws, m);
  }

  lemma PassStep(ws: seq<Win>, e: Env, k: nat)
    requires k < |ws| && e.n == CountTrue(Flags(ws, e.m))
    requires CountTrue(Flags(ws, e.m)[..k]) < e.n
    ensures var p := Pass(ws, e, k);
            var box := Request(e, p.cur);
            Pass(ws, e, k + 1)
            == if !Eligible(ws[k], e.m) then Placed(p.reqs + [None], p.cur)
               else Placed(p.reqs + [Some(box)], Advance(e, p.cur, Settle(ws[k], box, e.m, e.sgeom).height))
  {
  }

  lemma PassSkip(ws: seq<Win>, e: Env, k: nat)
    requires k < |ws| && e.n == CountTrue(Flags(ws, e.m)) && !Eligible(ws[k], e.m)
    ensures Pass(ws, e, k + 1) == Placed(Pass(ws, e, k).reqs + [None], Pass(ws, e, k).cur)
  {
  }

  /** The resize requests of `tile`, one entry per window in list order
    * (`None`: not resized). */
  function Plan(ws: seq<Win>, m: LMon, sel: LMon, cfg: Config, sgeom: Box): (r: seq<Option<Box>>)
    ensures |r| == |ws|
  {
    var e := MakeEnv(ws, m, sel, cfg, sgeom);
    if e.n == 0 then seq(|ws|, k => None) else Pass(ws, e, |ws|).reqs
  }

  /** `tile(m)`. */
  method TileLayout(ws: seq<Win>, m: LMon, sel: LMon, cfg: Config, sgeom: Box) returns (reqs: seq<Option<Box>>)
    ensures reqs == Plan(ws, m, sel, cfg, sgeom)
  {
    var n := CountEligible(Flags(ws, m));
    if n == 0 {
      return seq(|ws|, k => None);
    }
    var e := MakeEnv(ws, m, sel, cfg, sgeom);
    var cur := Cursor(0, e.g.oh, e.g.oh);
    reqs := [];
    var k := 0;
    while k < |ws|
      invariant k <= |ws|
      invariant Pass(ws, e, k) == Placed(reqs, cur)
    {
      reqs, cur := PlaceOne(ws, e, k, reqs, cur);
      k := k + 1;
    }
  }

  /** One iteration of the placement loop: an eligible window is resized
    * into its column and the column cursor moves past its settled height
    * and one inner gap. */
  method PlaceOne(ws: seq<Win>, e: Env, k: nat, reqs: seq<Option<Box>>, cur: Cursor)
    returns (reqs': seq<Option<Box>>, cur': Cursor)
    requires k < |ws| && e.n == CountTrue(Flags(ws, e.m))
    requires Pass(ws, e, k) == Placed(reqs, cur)
    ensures Pass(ws, e, k + 1) == Placed(reqs', cur')
  {
    var w := ws[k];
    if !Eligible(w, e.m) {
      PassSkip(ws, e, k);
      return reqs + [None], cur;
    }
    RankBelowCount(ws, e.m, k);
    PassStep(ws, e, k);
    var box := Request(e, cur);
    var h := Settle(w, box, e.m, e.sgeom).height;
    var my, ty := cur.my, cur.ty;
    if cur.i < e.nm {
      my := my + h + e.g.ih * e.ie;
    } else {
      ty := ty + h + e.g.ih * e.ie;
    }
    return reqs + [Some(box)], Cursor(cur.i + 1, my, ty);
  }

  /** The window at `k` goes to the master column: fewer than `nm`
    * windows were placed before it. */
  predicate InMasters(ws: seq<Win>, e: Env, k: nat)
    requires k <= |ws|
  {
    CountTrue(Flags(ws, e.m)[..k]) < e.nm
  }

  /** The space taken in column `col` by the windows before `k`: the
    * settled height plus one inner gap of each of them. */
  function Above(ws: seq<Win>, e: Env, reqs: seq<Option<Box>>, k: nat, col: bool): int
    requires k <= |ws| && k <= |reqs|
  {
    if k == 0 then 0
    else Above(ws, e, reqs, k - 1, col)
         + (if reqs[k - 1].Some? && InMasters(ws, e, k - 1) == col
            then Settle(ws[k - 1], reqs[k - 1].value, e.m, e.sgeom).height + e.g.ih * e.ie else 0)
  }

  /** The rectangle of the placed window of rank `rank` in column `col`
    * below `above` pixels of earlier windows: the column's x and width,
    * y after the outer gap and the windows above, and as height an equal
    * share, among the `r` windows of the column not yet placed, of what
    * is left after the outer gaps and the `r - 1` inner gaps. */
  function ColumnBox(e: Env, rank: nat, above: int, col: bool): Box
    requires rank < e.n && (col <==> rank < e.nm)
  {
    Box(ColumnX(e, col), I32(e.m.w.y + e.g.oh + above), ColumnWidth(e, col),
        Share(e, e.g.oh + above, Remaining(e, rank, col)))
  }

  lemma AbovePrefix(ws: seq<Win>, e: Env, reqs: seq<Option<Box>>, more: seq<Option<Box>>, k: nat, col: bool)
    requires k <= |ws| && k <= |reqs|
    ensures Above(ws, e, reqs + more, k, col) == Above(ws, e, reqs, k, col)
  {
    if k > 0 {
      AbovePrefix(ws, e, reqs, more, k - 1, col);
    }
  }

  /** The request at `j` is the closed-form one. */
  predicate Boxed(ws: seq<Win>, e: Env, reqs: seq<Option<Box>>, j: nat)
    requires j < |ws| && j < |reqs| && e.n == CountTrue(Flags(ws, e.m))
  {
    reqs[j] == if !Eligible(ws[j], e.m) then None else Some(ColumnBoxAt(ws, e, reqs, j))
  }

  /** What the loop keeps: each column cursor is the outer gap plus the
    * space taken in that column, and every window so far got its
    * `ColumnBox`. */
  predicate PassInv(ws: seq<Win>, e: Env, k: nat, p: Placed)
    requires k <= |ws| && e.n == CountTrue(Flags(ws, e.m)) && |p.reqs| == k
  {
    p.cur.my == e.g.oh + Above(ws, e, p.reqs, k, true)
    && p.cur.ty == e.g.oh + Above(ws, e, p.reqs, k, false)
    && forall j :: 0 <= j < k ==> Boxed(ws, e, p.reqs, j)
  }

  function ColumnBoxAt(ws: seq<Win>, e: Env, reqs: seq<Option<Box>>, j: nat): Box
    requires j < |ws| && j <= |reqs| && e.n == CountTrue(Flags(ws, e.m)) && Eligible(ws[j], e.m)
  {
    RankBelowCount(ws, e.m, j);
    ColumnBox(e, CountTrue(Flags(ws, e.m)[..j]), Above(ws, e, reqs, j, InMasters(ws, e, j)), InMasters(ws, e, j))
  }

  /** Appending requests keeps the earlier ones closed-form. */
  lemma BoxedExtend(ws: seq<Win>, e: Env, reqs: seq<Option<Box>>, x: Option<Box>, j: nat)
    requires j < |ws| && j < |reqs| && e.n == CountTrue(Flags(ws, e.m))
    requires Boxed(ws, e, reqs, j)
    ensures Boxed(ws, e, reqs + [x], j)
  {
    AbovePrefix(ws, e, reqs, [x], j, InMasters(ws, e, j));
    assert (reqs + [x])[j] == reqs[j];
  }

  /** The request made from a cursor is the closed-form rectangle. */
  lemma RequestIsColumnBox(ws: seq<Win>, e: Env, k: nat)
    requires k < |ws| && e.n == CountTrue(Flags(ws, e.m)) && Eligible(ws[k], e.m)
    requires PassInv(ws, e, k, Pass(ws, e, k))
    ensures Pass(ws, e, k).cur.i < e.n
    ensures Request(e, Pass(ws, e, k).cur) == ColumnBoxAt(ws, e, Pass(ws, e, k).reqs, k)
  {
    RankBelowCount(ws, e.m, k);
    var p := Pass(ws, e, k);
    var col := InMasters(ws, e, k);
    var a := Above(ws, e, p.reqs, k, col);
    RequestAt(e, p.cur, a, col);
  }

  lemma RequestAt(e: Env, c: Cursor, above: int, col: bool)
    requires c.i < e.n && (col <==> c.i < e.nm)
    requires (if col then c.my else c.ty) == e.g.oh + above
    ensures Request(e, c) == ColumnBox(e, c.i, above, col)
  {
  }

  lemma {:induction false} PassKeepsInv(ws: seq<Win>, e: Env, k: nat)
    requires k <= |ws| && e.n == CountTrue(Flags(ws, e.m))
    ensures PassInv(ws, e, k, Pass(ws, e, k))
  {
    if k > 0 {
      PassKeepsInv(ws, e, k - 1);
      var x;
      if Eligible(ws[k - 1], e.m) {
        x := InvStep(ws, e, k - 1);
      } else {
        x := InvSkip(ws, e, k - 1);
      }
      InvExtend(ws, e, k - 1, Pass(ws, e, k - 1), Pass(ws, e, k), x);
    }
  }

  /** One more window handled as `InvStep` or `InvSkip` describe keeps
    * the loop invariant. */
  lemma InvExtend(ws: seq<Win>, e: Env, k: nat, p: Placed, q: Placed, x: Option<Box>)
    requires k < |ws| && e.n == CountTrue(Flags(ws, e.m)) && |p.reqs| == k
    requires PassInv(ws, e, k, p)
    requires q.reqs == p.reqs + [x]
    requires q.cur.my == e.g.oh + Above(ws, e, q.reqs, k + 1, true)
    requires q.cur.ty == e.g.oh + Above(ws, e, q.reqs, k + 1, false)
    requires Boxed(ws, e, q.reqs, k)
    ensures PassInv(ws, e, k + 1, q)
  {
    AllBoxedExtend(ws, e, p.reqs, x);
  }

  /** Appending a request keeps every earlier one closed-form. */
  lemma AllBoxedExtend(ws: seq<Win>, e: Env, reqs: seq<Option<Box>>, x: Option<Box>)
    requires |reqs| < |ws| && e.n == CountTrue(Flags(ws, e.m))
    requires forall j :: 0 <= j < |reqs| ==> Boxed(ws, e, reqs, j)
    ensures forall j :: 0 <= j < |reqs| ==> Boxed(ws, e, reqs + [x], j)
  {
    forall j | 0 <= j < |reqs|
      ensures Boxed(ws, e, reqs + [x], j)
    {
      BoxedExtend(ws, e, reqs, x, j);
    }
  }

  /** A window that is not placed leaves the cursors and gets no request. */
  lemma InvSkip(ws: seq<Win>, e: Env, k: nat) returns (x: Option<Box>)
    requires k < |ws| && e.n == CountTrue(Flags(ws, e.m)) && !Eligible(ws[k], e.m)
    requires PassInv(ws, e, k, Pass(ws, e, k))
    ensures Pass(ws, e, k + 1).reqs == Pass(ws, e, k).reqs + [x]
    ensures Pass(ws, e, k + 1).cur.my == e.g.oh + Above(ws, e, Pass(ws, e, k + 1).reqs, k + 1, true)
    ensures Pass(ws, e, k + 1).cur.ty == e.g.oh + Above(ws, e, Pass(ws, e, k + 1).reqs, k + 1, false)
    ensures Boxed(ws, e, Pass(ws, e, k + 1).reqs, k)
  {
    x := None;
    var p := Pass(ws, e, k);
    PassSkip(ws, e, k);
    AbovePrefix(ws, e, p.reqs, [x], k, true);
    AbovePrefix(ws, e, p.reqs, [x], k, false);
  }

  /** One placed window moves its column's cursor past its settled height
    * and one gap, and gets its closed-form rectangle. */
  lemma InvStep(ws: seq<Win>, e: Env, k: nat) returns (x: Option<Box>)
    requires k < |ws| && e.n == CountTrue(Flags(ws, e.m)) && Eligible(ws[k], e.m)
    requires PassInv(ws, e, k, Pass(ws, e, k))
    ensures Pass(ws, e, k + 1).reqs == Pass(ws, e, k).reqs + [x]
    ensures Pass(ws, e, k + 1).cur.my == e.g.oh + Above(ws, e, Pass(ws, e, k + 1).reqs, k + 1, true)
    ensures Pass(ws, e, k + 1).cur.ty == e.g.oh + Above(ws, e, Pass(ws, e, k + 1).reqs, k + 1, false)
    ensures Boxed(ws, e, Pass(ws, e, k + 1).reqs, k)
  {
    var p := Pass(ws, e, k);
    RankBelowCount(ws, e.m, k);
    PassStep(ws, e, k);
    RequestIsColumnBox(ws, e, k);
    var box := Request(e, p.cur);
    x := Some(box);
    var q := Pass(ws, e, k + 1);
    assert q.reqs == p.reqs + [x];
    AbovePrefix(ws, e, p.reqs, [x], k, true);
    AbovePrefix(ws, e, p.reqs, [x], k, false);
    assert q.reqs[k] == x;
    var col := InMasters(ws, e, k);
    var h := Settle(ws[k], box, e.m, e.sgeom).height;
    var gap := e.g.ih * e.ie;
    assert q.cur == Advance(e, p.cur, h);
    var a := Above(ws, e, p.reqs, k, col);
    assert Above(ws, e, q.reqs, k + 1, col) == a + (h + gap);
    assert Above(ws, e, q.reqs, k + 1, !col) == Above(ws, e, p.reqs, k, !col);
    assert p.cur.i == CountTrue(Flags(ws, e.m)[..k]);
  }

  /** The closed form of `tile`: the window at `k` is not resized when it
    * is not placed; otherwise it gets the rectangle of its column at the
    * height the earlier windows of that column leave, as `ColumnBox`
    * describes. */
  lemma TileColumns(ws: seq<Win>, m: LMon, sel: LMon, cfg: Config, sgeom: Box, k: nat)
    requires k < |ws|
    ensures var e := MakeEnv(ws, m, sel, cfg, sgeom);
            var r := Plan(ws, m, sel, cfg, sgeom);
            r[k] == if !Eligible(ws[k], m) then None else Some(ColumnBoxAt(ws, e, r, k))
  {
    var e := MakeEnv(ws, m, sel, cfg, sgeom);
    if e.n == 0 {
      if Eligible(ws[k], m) {
        RankBelowCount(ws, m, k);
      }
    } else {
      PassKeepsInv(ws, e, |ws|);
      assert Boxed(ws, e, Pass(ws, e, |ws|).reqs, k);
    }
  }

  /** Three windows on a 1920x1080 monitor without gaps, one master at
    * factor 0.5: the master takes the left half and the two stack windows
    * split the right half. */
  lemma TileThreeWindows(cfg: Config, sgeom: Box)
    ensures Plan([ExampleWin, ExampleWin, ExampleWin], ExampleMon, ExampleMon, cfg, sgeom)
            == [Some(Box(0, 0, 960, 1080)), Some(Box(960, 0, 960, 540)), Some(Box(960, 540, 960, 540))]
  {
    var ws := [ExampleWin, ExampleWin, ExampleWin];
    var e := ExampleEnv(cfg, sgeom);
    var b0, b1, b2 := Box(0, 0, 960, 1080), Box(960, 0, 960, 540), Box(960, 540, 960, 540);
    ExampleRequests(e);
    SettleInside(ExampleWin, b0, ExampleMon, sgeom);
    SettleInside(ExampleWin, b1, ExampleMon, sgeom);
    PassStep(ws, e, 0);
    PassStep(ws, e, 1);
    PassStep(ws, e, 2);
  }

  const ExampleWin := Win(0, 1, false, false, false, false, false, false, true, false, false, 0, Box(0, 0, 0, 0), 0.0)
  const ExampleMon := LMon(0, 1, Box(0, 0, 1920, 1080), 0, 0, 0, 0, 3, 1, 1, 0.5, 0.5, false)

  function ExampleEnv(cfg: Config, sgeom: Box): (e: Env)
    ensures e == MakeEnv([ExampleWin, ExampleWin, ExampleWin], ExampleMon, ExampleMon, cfg, sgeom)
    ensures CountTrue(Flags([ExampleWin, ExampleWin, ExampleWin], ExampleMon)) == 3
    ensures e.m == ExampleMon && e.g == Gaps(0, 0, 0, 0) && e.n == 3 && e.nm == 1 && e.mw == 960 && e.sgeom == sgeom
  {
    var ws := [ExampleWin, ExampleWin, ExampleWin];
    assert Eligible(ExampleWin, ExampleMon) by { assert ExampleWin.tags & ExampleMon.tags == 1; }
    assert Flags(ws, ExampleMon) == [true, true, true];
    CountThree();
    assert Trunc(1920.0 * 0.5) == 960;
    MakeEnv(ws, ExampleMon, ExampleMon, cfg, sgeom)
  }

  lemma ExampleRequests(e: Env)
    requires e.m == ExampleMon && e.g == Gaps(0, 0, 0, 0) && e.n == 3 && e.nm == 1 && e.mw == 960
    ensures Request(e, Cursor(0, 0, 0)) == Box(0, 0, 960, 1080)
    ensures Request(e, Cursor(1, 1080, 0)) == Box(960, 0, 960, 540)
    ensures Request(e, Cursor(2, 1080, 540)) == Box(960, 540, 960, 540)
  {
  }

  /** A mapped window asked into a rectangle inside the monitor area that
    * is at least the minimum size settles there. */
  lemma SettleInside(w: Win, b: Box, m: LMon, sgeom: Box)
    requires w.mapped && !w.isfloating && !w.isfullscreen && !m.scroller
    requires b.width >= MinSide(w.bw) && b.height >= MinSide(w.bw) && OverlapsX(b, m.w) && OverlapsY(b, m.w)
    ensures Settle(w, b, m, sgeom) == b
  {
    ApplyBoundsKeepsOverlapping(b, w.bw, m.w);
  }

  lemma CountThree()
    ensures CountTrue([true]) == 1 && CountTrue([true, true]) == 2 && CountTrue([true, true, true]) == 3
  {
    assert [true, true, true][..2] == [true, true];
    assert [true, true][..1] == [true];
    assert [true][..0] == [];
  }
}
