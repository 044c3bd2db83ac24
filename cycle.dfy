/** The two cycling commands: `switch_layout` steps the current tag's
  * layout through the configured circle (or through the whole layout
  * table), and `switch_proportion_preset` steps the focused window's
  * scroller proportion through the configured presets. */
module Cycle {
  import opened CNum
  import opened Opt
  import opened State

  /** The first index at or after `from` holding `x`, or `|s|`. */
  function FirstIndex<T(==)>(s: seq<T>, x: T, from: nat): (r: nat)
    requires from <= |s|
    ensures from <= r <= |s|
    ensures r < |s| ==> s[r] == x
    ensures forall i :: from <= i < r ==> s[i] != x
    decreases |s| - from
  {
    if from == |s| then |s| else if s[from] == x then from else FirstIndex(s, x, from + 1)
  }

  function Names(layouts: seq<Layout>): (r: seq<string>)
    ensures |r| == |layouts| && forall i :: 0 <= i < |layouts| ==> r[i] == layouts[i].name
  {
    seq(|layouts|, i requires 0 <= i < |layouts| => layouts[i].name)
  }

  /** The entry after index `k`, wrapping to the first. */
  function NextAfter<T>(s: seq<T>, k: nat): (r: T)
    requires k < |s|
    ensures r == s[(k + 1) % |s|]
  {
    if k == |s| - 1 then s[0] else s[k + 1]
  }

  /** `switch_layout`: `None` when it returns without rearranging, else the
    * layout stored for the current tag (possibly the old one, when the
    * circle names no known layout). */
  function SwitchLayoutSpec(cur: Layout, circle: seq<string>, layouts: seq<Layout>): Option<Layout> {
    if |circle| != 0 then
      var k := FirstIndex(circle, cur.name, 0);
      var target := if k < |circle| then NextAfter(circle, k) else circle[0];
      var j := FirstIndex(Names(layouts), target, 0);
      Some(if j < |layouts| then layouts[j] else cur)
    else
      var j := FirstIndex(Names(layouts), cur.name, 0);
      if j < |layouts| then Some(NextAfter(layouts, j)) else None
  }

  /** With a circle configured, the new layout is the first table entry
    * named after the circle entry following the current layout's name
    * (the first circle entry when the name is not in the circle). */
  lemma SwitchLayoutFollowsCircle(cur: Layout, circle: seq<string>, layouts: seq<Layout>, k: nat, j: nat)
    requires k < |circle| && circle[k] == cur.name && forall i :: 0 <= i < k ==> circle[i] != cur.name
    requires j < |layouts| && layouts[j].name == circle[(k + 1) % |circle|]
    requires forall i :: 0 <= i < j ==> layouts[i].name != layouts[j].name
    ensures SwitchLayoutSpec(cur, circle, layouts) == Some(layouts[j])
  {
    var names := Names(layouts);
    assert FirstIndex(circle, cur.name, 0) == k;
    assert FirstIndex(names, layouts[j].name, 0) == j;
  }

  /** Without a circle, the layout advances to the next table entry after
    * the first one with the current name, wrapping around; a current
    * layout whose name is not in the table is not changed. */
  lemma SwitchLayoutAdvances(cur: Layout, layouts: seq<Layout>, j: nat)
    requires j < |layouts| && layouts[j].name == cur.name
    requires forall i :: 0 <= i < j ==> layouts[i].name != cur.name
    ensures SwitchLayoutSpec(cur, [], layouts) == Some(layouts[(j + 1) % |layouts|])
  {
  }

  lemma SwitchLayoutUnknown(cur: Layout, layouts: seq<Layout>)
    requires forall i :: 0 <= i < |layouts| ==> layouts[i].name != cur.name
    ensures SwitchLayoutSpec(cur, [], layouts).None?
  {
  }

  /** The first index holding `x`, or `|s|`. */
  method Find<T(==)>(s: seq<T>, x: T) returns (k: nat)
    ensures k == FirstIndex(s, x, 0)
  {
    k := 0;
    while k < |s| && s[k] != x
      invariant k <= |s|
      invariant FirstIndex(s, x, k) == FirstIndex(s, x, 0)
    {
      k := k + 1;
    }
  }

  /** A search over the layout table by name (the `strncmp` over the
    * longer of the two lengths compares whole strings). */
  method FindLayout(layouts: seq<Layout>, name: string) returns (j: nat)
    ensures j == FirstIndex(Names(layouts), name, 0)
  {
    j := 0;
    while j < |layouts| && layouts[j].name != name
      invariant j <= |layouts|
      invariant FirstIndex(Names(layouts), name, j) == FirstIndex(Names(layouts), name, 0)
    {
      j := j + 1;
    }
  }

  /** `switch_layout` on the selected monitor. */
  method SwitchLayout(m: Monitor, circle: seq<string>, layouts: seq<Layout>) returns (arranged: bool)
    requires m.Valid()
    modifies m`lts
    ensures m.Valid()
    ensures var r := SwitchLayoutSpec(old(m.CurrentLayout()), circle, layouts);
            arranged <==> r.Some?
    ensures var r := SwitchLayoutSpec(old(m.CurrentLayout()), circle, layouts);
            m.lts == if r.Some? then old(m.lts)[m.curtag := r.value] else old(m.lts)
  {
    var cur := m.lts[m.curtag];
    if |circle| != 0 {
      var k := Find(circle, cur.name);
      var name := if k == |circle| then circle[0] else if k == |circle| - 1 then circle[0] else circle[k + 1];
      var j := FindLayout(layouts, name);
      if j < |layouts| {
        m.lts := m.lts[m.curtag := layouts[j]];
      } else {
        m.lts := m.lts[m.curtag := cur];
      }
      return true;
    }
    var j := FindLayout(layouts, cur.name);
    if j < |layouts| {
      m.lts := m.lts[m.curtag := if j == |layouts| - 1 then layouts[0] else layouts[j + 1]];
      return true;
    }
    return false;
  }

  /** The proportion `switch_proportion_preset` picks: the preset after the
    * first one equal to the current proportion, wrapping around; the
    * first preset when there is none, or when the pick is 0. */
  function NextPreset(presets: seq<real>, p: real): (r: real)
    requires |presets| > 0
    ensures r in presets
  {
    var k := FirstIndex(presets, p, 0);
    var t := if k < |presets| then NextAfter(presets, k) else 0.0;
    if t == 0.0 then presets[0] else t
  }

  /** With distinct nonzero presets, the pick from preset `k` is preset
    * `k + 1`, wrapping around, so repeated picks visit every preset in
    * turn. */
  lemma NextPresetCycles(presets: seq<real>, k: nat)
    requires k < |presets|
    requires forall i, j :: 0 <= i < j < |presets| ==> presets[i] != presets[j]
    requires forall i :: 0 <= i < |presets| ==> presets[i] != 0.0
    ensures NextPreset(presets, presets[k]) == presets[(k + 1) % |presets|]
  {
  }

  /** A proportion that is not a preset moves to the first preset. */
  lemma NextPresetFromUnknown(presets: seq<real>, p: real)
    requires |presets| > 0 && p !in presets
    ensures NextPreset(presets, p) == presets[0]
  {
  }

  /** The width the command gives the focused window: the proportion of
    * the monitor width without the struts and the inner gap, computed as
    * `unsigned int`. */
  function PresetWidth(mw: int, structs: int, gappih: int, t: real): (r: int)
    ensures t >= 0.0 ==> r >= 0
    ensures 0 <= mw - 2 * structs - gappih < TWO_32 ==> r == Trunc((mw - 2 * structs - gappih) as real * t)
  {
    Trunc(U32(mw - 2 * structs - gappih) as real * t)
  }

  /** The search of `switch_proportion_preset` for the next preset. */
  method PickPreset(presets: seq<real>, p: real) returns (target: real)
    requires |presets| > 0
    ensures target == NextPreset(presets, p)
  {
    var k := Find(presets, p);
    target := 0.0;
    if k < |presets| {
      target := if k == |presets| - 1 then presets[0] else presets[k + 1];
    }
    if target == 0.0 {
      target := presets[0];
    }
  }

  /** `switch_proportion_preset`: `true` when it rearranges.  `gappih` and
    * `structs` are the configured inner gap and strut width. */
  method SwitchProportionPreset(m: Monitor, presets: seq<real>, structs: int, gappih: int) returns (arranged: bool)
    modifies if m.sel == null then {} else {m.sel}
    ensures arranged <==> |presets| > 0 && m.sel != null
    ensures !arranged ==> m.sel == null || unchanged(m.sel)
    ensures arranged ==> m.sel.scrollerProportion == NextPreset(presets, old(m.sel.scrollerProportion))
    ensures arranged ==> m.sel.geom == old(m.sel.geom).(width := PresetWidth(m.w.width, structs, gappih, m.sel.scrollerProportion))
  {
    if |presets| == 0 || m.sel == null {
      return false;
    }
    var sel := m.sel;
    var target := PickPreset(presets, sel.scrollerProportion);
    var width := PresetWidth(m.w.width, structs, gappih, target);
    sel.scrollerProportion := target;
    sel.geom := sel.geom.(width := width);
    return true;
  }
}
