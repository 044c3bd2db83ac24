/** `deck`: the first `nmaster` placed windows split a master column
  * vertically; every other placed window gets the same rectangle, the
  * whole stack area.  Unlike `tile` it reads the arranged monitor's own
  * `nmaster` field and its pertag `mfact`. */
module Deck {
  import opened CNum
  import opened Opt
  import opened Geometry
  import opened Settings
  import opened LayoutBase

  /** The windows `deck` places (it does not skip killed, maximized or
    * tag-out windows). */
  predicate Eligible(w: Win, m: LMon) {
    VisibleOn(w, m) && !w.isfloating && !w.isfullscreen
  }

  function Flags(ws: seq<Win>, m: LMon): (r: seq<bool>)
    ensures |r| == |ws| && forall k :: 0 <= k < |ws| ==> r[k] == Eligible(ws[k], m)
  {
    seq(|ws|, k requires 0 <= k < |ws| => Eligible(ws[k], m))
  }

  /** The values fixed before the placement loop. */
  datatype Env = Env(m: LMon, g: Gaps, n: nat, mw: int, sgeom: Box)

  /** `mw`: the `mfact` share of the width inside the outer gaps, rounded,
    * when there are more windows than masters (none without masters),
    * else that whole width. */
  function MasterWidth(m: LMon, g: Gaps, n: nat): (mw: int)
    ensures 0 <= mw < TWO_32
    ensures n <= m.nmaster ==> mw == U32(m.w.width - 2 * g.oh)
    ensures n > m.nmaster && m.nmaster == 0 ==> mw == 0
  {
    if n > m.nmaster then
      (if m.nmaster != 0 then RealToU32(Round(U32(m.w.width - 2 * g.oh) as real * m.ptMfact) as real) else 0)
    else U32(m.w.width - 2 * g.oh)
  }

  function MakeEnv(ws: seq<Win>, m: LMon, cfg: Config, sgeom: Box): (e: Env)
    ensures e.m == m && e.n == CountTrue(Flags(ws, m))
  {
    var g := CurGaps(m, cfg);
    var n := CountTrue(Flags(ws, m));
    Env(m, g, n, MasterWidth(m, g, n), sgeom)
  }

  /** The placed rank of the window at `k`: how many placed windows
    * precede it. */
  function Rank(ws: seq<Win>, m: LMon, k: nat): nat
    requires k <= |ws|
  {
    CountTrue(Flags(ws, m)[..k])
  }

  /** The rectangle shared by all stack windows: right of `mw` and one
    * inner gap, inside the outer gaps. */
  function StackBox(e: Env): Box {
    Box(I32(e.m.w.x + e.mw + e.g.oh + e.g.ih), I32(e.m.w.y + e.g.ov),
        I32(e.m.w.width - e.mw - 2 * e.g.oh - e.g.ih), I32(e.m.w.height - 2 * e.g.ov))
  }

  /** The master of rank `rank` at cursor `my`: `mw` wide after the outer
    * gap, and an equal share, among the masters not yet placed, of the
    * height left below the cursor minus the outer gap and one inner gap. */
  function MasterBox(e: Env, rank: nat, my: int): Box
    requires rank < Min(e.n, e.m.nmaster)
  {
    Box(I32(e.m.w.x + e.g.oh), I32(e.m.w.y + e.g.ov + my), I32(e.mw),
        I32(U32(e.m.w.height - e.g.ov - my - e.g.iv) / (Min(e.n, e.m.nmaster) - rank)))
  }

  /** The space taken in the master column by the windows before `k`: the
    * settled height plus one inner gap of each earlier master. */
  function MasterAbove(ws: seq<Win>, e: Env, reqs: seq<Option<Box>>, k: nat): int
    requires k <= |ws| && k <= |reqs|
  {
    if k == 0 then 0
    else MasterAbove(ws, e, reqs, k - 1)
         + (if reqs[k - 1].Some? && Rank(ws, e.m, k - 1) < e.m.nmaster
            then Settle(ws[k - 1], reqs[k - 1].value, e.m, e.sgeom).height + e.g.iv else 0)
  }

  /** The request of the window at `k`: none when it is not placed, its
    * master rectangle below the earlier masters when its rank is below
    * `nmaster`, else the stack rectangle. */
  predicate Boxed(ws: seq<Win>, e: Env, reqs: seq<Option<Box>>, k: nat)
    requires k < |ws| && k < |reqs| && e.n == CountTrue(Flags(ws, e.m))
  {
    if !Eligible(ws[k], e.m) then reqs[k] == None
    else if Rank(ws, e.m, k) < e.m.nmaster then
      RankBelowTotal(Flags(ws, e.m), k);
      reqs[k] == Some(MasterBox(e, Rank(ws, e.m, k), MasterAbove(ws, e, reqs, k)))
    else reqs[k] == Some(StackBox(e))
  }

  lemma MasterAbovePrefix(ws: seq<Win>, e: Env, reqs: seq<Option<Box>>, x: Option<Box>, k: nat)
    requires k <= |ws| && k <= |reqs|
    ensures MasterAbove(ws, e, reqs + [x], k) == MasterAbove(ws, e, reqs, k)
  {
    if k > 0 {
      MasterAbovePrefix(ws, e, reqs, x, k - 1);
    }
  }

  lemma AllBoxedExtend(ws: seq<Win>, e: Env, reqs: seq<Option<Box>>, x: Option<Box>)
    requires |reqs| < |ws| && e.n == CountTrue(Flags(ws, e.m))
    requires forall j :: 0 <= j < |reqs| ==> Boxed(ws, e, reqs, j)
    ensures forall j :: 0 <= j < |reqs| ==> Boxed(ws, e, reqs + [x], j)
  {
    forall j | 0 <= j < |reqs|
      ensures Boxed(ws, e, reqs + [x], j)
    {
      BoxedExtend(ws, e, reqs, x, j);
    }
  }

  lemma BoxedExtend(ws: seq<Win>, e: Env, reqs: seq<Option<Box>>, x: Option<Box>, j: nat)
    requires j < |reqs| < |ws| && e.n == CountTrue(Flags(ws, e.m))
    requires Boxed(ws, e, reqs, j)
    ensures Boxed(ws, e, reqs + [x], j)
  {
    assert (reqs + [x])[j] == reqs[j];
    MasterAbovePrefix(ws, e, reqs, x, j);
  }

  /** A placed window of rank `nmaster` or more goes to the stack. */
  predicate InStack(ws: seq<Win>, m: LMon, k: nat)
    requires k < |ws|
  {
    Eligible(ws[k], m) && Rank(ws, m, k) >= m.nmaster
  }

  /** `deck(m)`: the resize request of each window in list order; all
    * stack windows get one and the same rectangle. */
  method DeckLayout(ws: seq<Win>, m: LMon, cfg: Config, sgeom: Box) returns (reqs: seq<Option<Box>>)
    ensures |reqs| == |ws|
    ensures forall k :: 0 <= k < |ws| ==> Boxed(ws, MakeEnv(ws, m, cfg, sgeom), reqs, k)
    ensures forall j, k :: 0 <= j < |ws| && 0 <= k < |ws| && InStack(ws, m, j) && InStack(ws, m, k) ==>
              reqs[j] == reqs[k]
  {
    var n := CountEligible(Flags(ws, m));
    var e := MakeEnv(ws, m, cfg, sgeom);
    if n == 0 {
      reqs := seq(|ws|, k => None);
      forall k | 0 <= k < |ws|
        ensures !Eligible(ws[k], m)
      {
        if Eligible(ws[k], m) {
          RankBelowTotal(Flags(ws, m), k);
        }
      }
      return;
    }
    reqs := [];
    var i: nat := 0;
    var my := 0;
    var k := 0;
    while k < |ws|
      invariant k <= |ws| && |reqs| == k
      invariant i == Rank(ws, m, k) && my == MasterAbove(ws, e, reqs, k)
      invariant forall j :: 0 <= j < k ==> Boxed(ws, e, reqs, j)
    {
      AllBoxedExtend(ws, e, reqs, None);
      reqs, i, my := PlaceOne(ws, e, k, reqs, i, my);
      k := k + 1;
    }
    forall j | 0 <= j < |ws| && InStack(ws, m, j)
      ensures reqs[j] == Some(StackBox(e))
    {
      assert Boxed(ws, e, reqs, j);
    }
  }

  /** One iteration of the placement loop. */
  method PlaceOne(ws: seq<Win>, e: Env, k: nat, reqs: seq<Option<Box>>, i: nat, my: int)
    returns (reqs': seq<Option<Box>>, i': nat, my': int)
    requires k < |ws| && |reqs| == k && e.n == CountTrue(Flags(ws, e.m))
    requires i == Rank(ws, e.m, k) && my == MasterAbove(ws, e, reqs, k)
    requires forall j :: 0 <= j < k ==> Boxed(ws, e, reqs, j)
    ensures |reqs'| == k + 1 && i' == Rank(ws, e.m, k + 1) && my' == MasterAbove(ws, e, reqs', k + 1)
    ensures forall j :: 0 <= j <= k ==> Boxed(ws, e, reqs', j)
  {
    var w := ws[k];
    CountTrueSnoc(Flags(ws, e.m), k);
    if !Eligible(w, e.m) {
      reqs', i', my' := reqs + [None], i, my;
      AllBoxedExtend(ws, e, reqs, None);
      MasterAbovePrefix(ws, e, reqs, None, k);
      return;
    }
    RankBelowTotal(Flags(ws, e.m), k);
    var box;
    if i < e.m.nmaster {
      box := MasterBox(e, i, my);
      my' := my + Settle(w, box, e.m, e.sgeom).height + e.g.iv;
    } else {
      box := StackBox(e);
      my' := my;
    }
    reqs', i' := reqs + [Some(box)], i + 1;
    AllBoxedExtend(ws, e, reqs, Some(box));
    MasterAbovePrefix(ws, e, reqs, Some(box), k);
  }
}
