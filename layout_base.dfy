/** What the layout functions of `layout.h` see of windows and monitors,
  * and what they share: the gap values after `enablegaps`/`smartgaps`,
  * the geometry `resize` settles on for a requested rectangle, and
  * counting the windows a layout places. */
module LayoutBase {
  import opened CNum
  import opened Opt
  import opened Geometry
  import opened Settings
  import opened State
  import opened Tags
  import opened Animation

  /** A client as the layouts read it.  `mon` identifies `c->mon` (-1 for
    * none); `grabbed` says it is `grabc`. */
  datatype Win = Win(mon: int, tags: bv32, isfloating: bool, isfullscreen: bool, ismaxmizescreen: bool,
                     iskilling: bool, tagouting: bool, unmanaged: bool, mapped: bool, grabbed: bool,
                     isOpenAnimation: bool, bw: nat, geom: Box, proportion: real)

  /** A monitor as the layouts read it: its identity, selected tagset,
    * window area, gap fields, `visible_clients`, the `nmaster` field, the
    * pertag values of its current tag, and whether that tag's layout is
    * the scroller. */
  datatype LMon = LMon(id: int, tags: bv32, w: Box, gappih: int, gappiv: int, gappoh: int, gappov: int,
                       visibleClients: nat, nmaster: int, ptNmaster: int, ptMfact: real, ptSmfact: real,
                       scroller: bool)

  /** The four `cur_gapp*` values of a layout (unsigned). */
  datatype Gaps = Gaps(ih: int, iv: int, oh: int, ov: int)

  /** VISIBLEON(c, m). */
  predicate VisibleOn(w: Win, m: LMon) {
    w.mon == m.id && Meets(w.tags, m.tags)
  }

  /** One gap: zero when gaps are off or, with `smartgaps`, when the
    * monitor shows a single window; otherwise the monitor's field as an
    * unsigned value. */
  function CurGap(g: int, m: LMon, cfg: Config): (r: int)
    ensures 0 <= r < TWO_32
    ensures cfg.smartgaps != 0 && m.visibleClients == 1 ==> r == 0
    ensures !cfg.enablegaps ==> r == 0
  {
    var v := if cfg.enablegaps then U32(g) else 0;
    if cfg.smartgaps != 0 && m.visibleClients == 1 then 0 else v
  }

  function CurGaps(m: LMon, cfg: Config): Gaps {
    Gaps(CurGap(m.gappih, m, cfg), CurGap(m.gappiv, m, cfg), CurGap(m.gappoh, m, cfg), CurGap(m.gappov, m, cfg))
  }

  /** The `c->geom` that `resize(c, box, 0)` leaves: an unmapped window
    * keeps its geometry; under the scroller a tiled (or grabbed) window
    * only gets the minimum size; otherwise the box is bounded by its
    * monitor's window area (`sgeom` for floating or fullscreen windows). */
  function Settle(w: Win, box: Box, owner: LMon, sgeom: Box): (r: Box)
    ensures !w.mapped ==> r == w.geom
    ensures w.mapped ==> r.width >= MinSide(w.bw) && r.height >= MinSide(w.bw)
  {
    if !w.mapped then w.geom
    else ResizeGeom(box, w.bw, owner.scroller && (!w.isfloating || w.grabbed),
                    if w.isfloating || w.isfullscreen then sgeom else owner.w)
  }

  /** The border width a layout gives the windows it places: none when
    * the arranged monitor shows a single window and both
    * `no_border_when_single` and `smartgaps` are on. */
  function BorderWidth(m: LMon, cfg: Config): nat {
    if m.visibleClients == 1 && cfg.noBorderWhenSingle != 0 && cfg.smartgaps != 0 then 0 else U32(cfg.borderpx)
  }

  /** The number of `true` entries. */
  function CountTrue(s: seq<bool>): (r: nat)
    ensures r <= |s|
  {
    if |s| == 0 then 0 else CountTrue(s[..|s| - 1]) + (if s[|s| - 1] then 1 else 0)
  }

  lemma CountTrueSnoc(s: seq<bool>, k: nat)
    requires k < |s|
    ensures CountTrue(s[..k + 1]) == CountTrue(s[..k]) + (if s[k] then 1 else 0)
  {
    assert s[..k + 1][..k] == s[..k];
  }

  /** A later prefix never counts fewer. */
  lemma {:induction false} CountTrueMonotone(s: seq<bool>, j: nat, k: nat)
    requires j <= k <= |s|
    ensures CountTrue(s[..j]) <= CountTrue(s[..k])
    decreases k - j
  {
    if j < k {
      CountTrueSnoc(s, k - 1);
      CountTrueMonotone(s, j, k - 1);
    }
  }

  /** A `true` entry is counted: fewer `true` entries precede it than
    * there are in all. */
  lemma RankBelowTotal(s: seq<bool>, k: nat)
    requires k < |s| && s[k]
    ensures CountTrue(s[..k]) < CountTrue(s)
  {
    CountTrueSnoc(s, k);
    CountTrueMonotone(s, k + 1, |s|);
    assert s[..|s|] == s;
  }

  /** The count loop every layout starts with. */
  method CountEligible(flags: seq<bool>) returns (n: nat)
    ensures n == CountTrue(flags)
  {
    n := 0;
    var k := 0;
    while k < |flags|
      invariant k <= |flags|
      invariant n == CountTrue(flags[..k])
    {
      CountTrueSnoc(flags, k);
      if flags[k] {
        n := n + 1;
      }
      k := k + 1;
    }
    assert flags[..|flags|] == flags;
  }

  /** A value stored into an `int` after unsigned arithmetic depends only
    * on the mathematical result: reducing an operand modulo 2^32 first
    * changes nothing. */
  lemma I32AddU32(a: int, b: int)
    ensures I32(a + U32(b)) == I32(a + b)
  {
    assert (U32(b) - b) % TWO_32 == 0;
    assert (a + U32(b)) % TWO_32 == (a + b) % TWO_32;
  }

  lemma U32AddU32(a: int, b: int)
    ensures U32(a + U32(b)) == U32(a + b)
  {
    assert (U32(b) - b) % TWO_32 == 0;
    assert (a + U32(b)) % TWO_32 == (a + b) % TWO_32;
  }

  lemma U32SubU32(a: int, b: int)
    ensures U32(a - U32(b)) == U32(a - b)
  {
    assert (U32(b) - b) % TWO_32 == 0;
    assert (a - U32(b)) % TWO_32 == (a - b) % TWO_32;
  }
}
