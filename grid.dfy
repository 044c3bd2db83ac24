/** `grid`, the overview layout: the windows of the *selected* monitor are
  * laid out in a grid of equal cells on the arranged monitor.  One window
  * gets a centred 70% x 80% cell, two windows two half-width cells at 65%
  * height; otherwise `cols` is the least value whose square reaches the
  * window count.  Every visited window first gets its border width.
  * Unsigned C arithmetic is kept. */
module Grid {
  import opened CNum
  import opened Opt
  import opened Geometry
  import opened Settings
  import opened State
  import opened Tags
  import opened LayoutBase

  /** The windows `grid` places: those of the selected monitor shown on
    * it (`VISIBLEON(c, c->mon)` with `c->mon == selmon`), not being
    * killed and not sliding out. */
  predicate Eligible(w: Win, sel: LMon) {
    w.mon == sel.id && Meets(w.tags, sel.tags) && !w.iskilling && !w.tagouting
  }

  function Flags(ws: seq<Win>, sel: LMon): (r: seq<bool>)
    ensures |r| == |ws| && forall k :: 0 <= k < |ws| ==> r[k] == Eligible(ws[k], sel)
  {
    seq(|ws|, k requires 0 <= k < |ws| => Eligible(ws[k], sel))
  }

  function Rank(ws: seq<Win>, sel: LMon, k: nat): nat
    requires k <= |ws|
  {
    CountTrue(Flags(ws, sel)[..k])
  }

  function Sq(c: nat): nat { c * c }

  /** The column loop: the least `cols` whose square is at least `n`. */
  method GridCols(n: nat) returns (cols: nat)
    ensures Sq(cols) >= n
    ensures forall c: nat :: c < cols ==> Sq(c) < n
  {
    cols := 0;
    while cols <= n / 2
      invariant cols <= n / 2 + 1
      invariant forall c: nat :: c < cols ==> Sq(c) < n
    {
      if Sq(cols) >= n {
        return;
      }
      cols := cols + 1;
    }
    HalfPlusOneSquared(n);
  }

  lemma HalfPlusOneSquared(n: nat)
    ensures Sq(n / 2 + 1) >= n
  {
    var h := n / 2;
    assert Sq(h + 1) == h * h + 2 * h + 1;
    assert h * h >= 0;
  }

  /** The row count: one row fewer than columns when that still holds all
    * windows. */
  function Rows(cols: nat, n: nat): nat {
    if cols != 0 && (cols - 1) * cols >= n then cols - 1 else cols
  }

  /** The rows hold all windows: `rows * cols >= n` with `rows` one of
    * `cols - 1`, `cols`. */
  lemma RowsHoldAll(cols: nat, n: nat)
    requires Sq(cols) >= n
    ensures Rows(cols, n) * cols >= n
    ensures Rows(cols, n) == cols || Rows(cols, n) + 1 == cols
  {
  }

  /** The values fixed before the placement loop.  `cols`/`rows` are only
    * read when `n >= 3`. */
  datatype Env = Env(m: LMon, n: nat, go: int, gi: int, bw: nat, cols: nat, rows: nat)

  /** The n = 1 cell: 70% of the width and 80% of the height inside the
    * outer gaps, centred on the window area, less the border. */
  function SingleBox(e: Env): Box {
    var cw := RealToU32(U32(e.m.w.width - 2 * e.go) as real * 0.7);
    var ch := RealToU32(U32(e.m.w.height - 2 * e.go) as real * 0.8);
    Box(I32(e.m.w.x + U32(e.m.w.width - cw) / 2), I32(e.m.w.y + U32(e.m.w.height - ch) / 2),
        I32(cw - 2 * e.bw), I32(ch - 2 * e.bw))
  }

  /** The n = 2 cells: each half of the width inside the outer gaps and one
    * inner gap, 65% of the height, vertically centred; the second one gap
    * right of the first. */
  function PairBox(e: Env, rank: nat): Box {
    var cw := U32(e.m.w.width - 2 * e.go - e.gi) / 2;
    var ch := RealToU32(U32(e.m.w.height - 2 * e.go) as real * 0.65);
    var x := if rank == 0 then e.m.w.x + e.go else e.m.w.x + cw + e.go + e.gi;
    Box(I32(x), I32(e.m.w.y + U32(e.m.w.height - ch) / 2 + e.go), I32(cw - 2 * e.bw), I32(ch - 2 * e.bw))
  }

  /** The general cell of rank `i`: column `i % cols` and row `i / cols`
    * of equal cells, the incomplete last row shifted right by `dx`. */
  function GridBox(e: Env, i: nat): Box
    requires e.rows > 0 && e.cols > 0
  {
    var ch := U32(e.m.w.height - 2 * e.go - (e.rows - 1) * e.gi) / e.rows;
    var cw := U32(e.m.w.width - 2 * e.go - (e.cols - 1) * e.gi) / e.cols;
    var overcols := e.n % e.cols;
    var dx := U32(U32(e.m.w.width - overcols * cw - (overcols - 1) * e.gi) / 2 - e.go);
    var cx0 := U32(e.m.w.x + U32((i % e.cols) * (cw + e.gi)));
    var cy := U32(e.m.w.y + U32((i / e.cols) * (ch + e.gi)));
    var cx := if overcols != 0 && i >= e.n - overcols then U32(cx0 + dx) else cx0;
    Box(I32(cx + e.go), I32(cy + e.go), I32(cw - 2 * e.bw), I32(ch - 2 * e.bw))
  }

  /** The cell of the placed window of rank `rank`. */
  function CellFor(e: Env, rank: nat): Box
    requires e.n >= 3 ==> e.rows > 0 && e.cols > 0
  {
    if e.n <= 1 then SingleBox(e) else if e.n == 2 then PairBox(e, rank) else GridBox(e, rank)
  }

  /** A window the loop reaches gets the border width: all of them, except
    * that with one window the loop stops at it. */
  predicate Visited(ws: seq<Win>, sel: LMon, n: nat, k: nat)
    requires k <= |ws|
  {
    n >= 2 || (n == 1 && Rank(ws, sel, k) == 0)
  }

  predicate WellFormed(e: Env) {
    e.n >= 3 ==> e.rows > 0 && e.cols > 0
  }

  /** What `grid` leaves for the window at `k`: the new border width of a
    * visited window, and the cell of a placed one. */
  predicate Placed(ws: seq<Win>, sel: LMon, e: Env, bws: seq<nat>, reqs: seq<Option<Box>>, k: nat)
    requires k < |ws| && k < |bws| && k < |reqs| && WellFormed(e)
  {
    bws[k] == (if Visited(ws, sel, e.n, k) then e.bw else ws[k].bw)
    && reqs[k] == if Eligible(ws[k], sel) then Some(CellFor(e, Rank(ws, sel, k))) else None
  }

  function MakeEnv(ws: seq<Win>, m: LMon, sel: LMon, cfg: Config, cols: nat): (e: Env)
    ensures e.n == CountTrue(Flags(ws, sel))
  {
    var n := CountTrue(Flags(ws, sel));
    Env(m, n, cfg.overviewgappo, cfg.overviewgappi, BorderWidth(m, cfg), cols, Rows(cols, n))
  }

  /** The column count `grid` computes for `n` windows. */
  function LeastCols(n: nat): (cols: nat)
    ensures Sq(cols) >= n && forall c: nat :: c < cols ==> Sq(c) < n
    decreases n
  {
    LeastColsFrom(n, 0)
  }

  function LeastColsFrom(n: nat, c: nat): (cols: nat)
    requires forall d: nat :: d < c ==> Sq(d) < n
    ensures Sq(cols) >= n && forall d: nat :: d < cols ==> Sq(d) < n
    decreases n - c
  {
    SquareGrows(c);
    if Sq(c) >= n then c else LeastColsFrom(n, c + 1)
  }

  lemma SquareGrows(c: nat)
    ensures Sq(c) >= c
  {
  }

  /** `grid(m)`: the border width and the resize request of every window in
    * list order, as `Placed` states. */
  method GridLayout(ws: seq<Win>, m: LMon, sel: LMon, cfg: Config) returns (bws: seq<nat>, reqs: seq<Option<Box>>)
    ensures |bws| == |ws| && |reqs| == |ws|
    ensures var e := MakeEnv(ws, m, sel, cfg, LeastCols(CountTrue(Flags(ws, sel))));
            WellFormed(e) && forall k :: 0 <= k < |ws| ==> Placed(ws, sel, e, bws, reqs, k)
  {
    var n := CountEligible(Flags(ws, sel));
    var cols := GridCols(n);
    SameCols(n, cols);
    var e := MakeEnv(ws, m, sel, cfg, cols);
    if n >= 3 {
      assert Sq(1) < 3;
      RowsHoldAll(cols, n);
    }
    bws, reqs := [], [];
    var i := 0;
    var k := 0;
    while k < |ws|
      invariant k <= |ws| && |bws| == k && |reqs| == k && i == Rank(ws, sel, k)
      invariant forall j :: 0 <= j < k ==> Placed(ws, sel, e, bws, reqs, j)
    {
      // with one window the C loop returns once it is placed (`i == 1`):
      // the windows after it are not visited
      bws, reqs, i := PlaceOne(ws, sel, e, k, bws, reqs, i);
      k := k + 1;
    }
  }

  /** Two least column counts agree. */
  lemma SameCols(n: nat, cols: nat)
    requires Sq(cols) >= n && forall c: nat :: c < cols ==> Sq(c) < n
    ensures cols == LeastCols(n)
  {
    var l := LeastCols(n);
    assert Sq(l) >= n;
  }

  /** One iteration: a visited window gets the border width; a placed one
    * its cell. */
  method PlaceOne(ws: seq<Win>, sel: LMon, e: Env, k: nat, bws: seq<nat>, reqs: seq<Option<Box>>, i: nat)
    returns (bws': seq<nat>, reqs': seq<Option<Box>>, i': nat)
    requires k < |ws| && |bws| == k && |reqs| == k && WellFormed(e) && e.n == CountTrue(Flags(ws, sel))
    requires i == Rank(ws, sel, k)
    requires forall j :: 0 <= j < k ==> Placed(ws, sel, e, bws, reqs, j)
    ensures |bws'| == k + 1 && |reqs'| == k + 1 && i' == Rank(ws, sel, k + 1)
    ensures forall j :: 0 <= j <= k ==> Placed(ws, sel, e, bws', reqs', j)
  {
    CountTrueSnoc(Flags(ws, sel), k);
    var visited := e.n >= 2 || (e.n == 1 && i == 0);
    var bw := if visited then e.bw else ws[k].bw;
    var req := None;
    i' := i;
    if Eligible(ws[k], sel) {
      req := Some(CellFor(e, i));
      i' := i + 1;
    }
    bws', reqs' := bws + [bw], reqs + [req];
    forall j | 0 <= j <= k
      ensures Placed(ws, sel, e, bws', reqs', j)
    {
      if j < k {
        assert bws'[j] == bws[j] && reqs'[j] == reqs[j];
        assert Placed(ws, sel, e, bws, reqs, j);
      }
    }
  }
}
