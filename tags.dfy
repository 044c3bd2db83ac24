/** Tag arithmetic: the masks and pertag indices the view commands compute,
  * as functions of the monitor's tag view. */
module Tags {
  import opened Opt
  import opened State

  /** The mask of tag index `k` (`1 << k`). */
  function Bit(k: nat): bv32
    requires k < TAG_COUNT + 1
  {
    match k
    case 0 => 1 case 1 => 2 case 2 => 4 case 3 => 8 case 4 => 16
    case 5 => 32 case 6 => 64 case 7 => 128 case 8 => 256 case _ => 512
  }

  predicate HasBit(x: bv32, k: nat)
    requires k < TAG_COUNT + 1
  {
    x & Bit(k) != 0
  }

  /** The tag bits of a mask (`x & TAGMASK`). */
  function TagBits(x: bv32): bv32 { x & TAGMASK }

  /** `x >> 1` and `x << 1`, kept behind functions so that the solver
    * only unfolds them where a proof needs their bits. */
  function Shr1(x: bv32): bv32 { x >> 1 }
  function Shl1(x: bv32): bv32 { x << 1 }

  /** `k` is the lowest tag index set in `x`. */
  ghost predicate IsLowestTag(x: bv32, k: nat) {
    k < TAG_COUNT && HasBit(x, k) && forall j :: 0 <= j < k ==> !HasBit(x, j)
  }

  /** The index the source's scanning loop stops at, starting from `i`:
    * the first set bit, or LENGTH(tags) when none of the tag bits is set. */
  function LowestFrom(x: bv32, i: nat): (r: nat)
    requires i <= TAG_COUNT
    ensures i <= r <= TAG_COUNT
    decreases TAG_COUNT - i
  {
    if i < TAG_COUNT && !HasBit(x, i) then LowestFrom(x, i + 1) else i
  }

  function LowestTag(x: bv32): (r: nat)
    ensures r <= TAG_COUNT
  {
    LowestFrom(x, 0)
  }

  lemma {:induction false} LowestFromSkipsClear(x: bv32, i: nat)
    requires i <= TAG_COUNT
    requires forall j :: 0 <= j < i ==> !HasBit(x, j)
    ensures forall j :: 0 <= j < LowestFrom(x, i) ==> !HasBit(x, j)
    ensures LowestFrom(x, i) < TAG_COUNT ==> HasBit(x, LowestFrom(x, i))
    decreases TAG_COUNT - i
  {
    if i < TAG_COUNT && !HasBit(x, i) {
      LowestFromSkipsClear(x, i + 1);
    }
  }

  /** A mask with a tag bit has a lowest tag, and the scan finds it. */
  lemma LowestTagIsLowest(x: bv32)
    requires TagBits(x) != 0
    ensures IsLowestTag(x, LowestTag(x))
  {
    LowestFromSkipsClear(x, 0);
  }

  /** The tag selection `view_in_mon` makes. */
  function WithSelected(v: TagView, s: nat, mask: bv32): TagView {
    if s == 0 then v.(seltags := 0, tagset0 := mask) else v.(seltags := s, tagset1 := mask)
  }

  /** The pertag index `view_in_mon` makes current for argument `ui`: 0 for
    * the all-tags overview argument, otherwise the lowest tag plus one. */
  function ViewCurtag(ui: bv32): (r: nat)
    ensures r <= TAG_COUNT
  {
    if ui == ALL_TAGS then 0
    else
      var i := LowestTag(ui);
      if i >= TAG_COUNT then TAG_COUNT else i + 1
  }

  /** `view_in_mon` returns without a change. */
  predicate ViewIgnored(ui: bv32, overview: bool) {
    (ui != ALL_TAGS && overview) || ui == 0
  }

  /** The tag view after `view_in_mon(ui)`. */
  function ViewInMonSpec(v: TagView, ui: bv32, overview: bool): TagView
    requires v.seltags <= 1
  {
    if ViewIgnored(ui, overview) then v
    else if TagBits(ui) != 0 then
      var cur := ViewCurtag(ui);
      WithSelected(v, 1 - v.seltags, TagBits(ui)).(
        curtag := cur,
        prevtag := if v.curtag == cur then v.prevtag else v.curtag)
    else
      v.(seltags := 1 - v.seltags, curtag := v.prevtag, prevtag := v.curtag)
  }

  /** The animation flag `view_in_mon` passes on to `arrange`: off when a
    * requested tag is already shown. */
  function ViewWantsAnimation(v: TagView, ui: bv32, want: bool): bool {
    if Meets(v.Selected(), TagBits(ui)) then false else want
  }

  predicate ValidView(v: TagView) {
    v.seltags <= 1 && v.curtag <= TAG_COUNT && v.prevtag <= TAG_COUNT
  }

  /** Viewing tags selects exactly the requested tags in the other tagset
    * slot, and the current tag is the lowest of them. */
  lemma ViewSelectsRequested(v: TagView, ui: bv32, overview: bool)
    requires ValidView(v)
    requires !ViewIgnored(ui, overview) && TagBits(ui) != 0 && ui != ALL_TAGS
    ensures ValidView(ViewInMonSpec(v, ui, overview))
    ensures ViewInMonSpec(v, ui, overview).seltags == 1 - v.seltags
    ensures ViewInMonSpec(v, ui, overview).Selected() == TagBits(ui)
    ensures IsLowestTag(ui, ViewInMonSpec(v, ui, overview).curtag - 1)
  {
    var cur := ViewCurtag(ui);
    LowestTagIsLowest(ui);
    assert cur == LowestTag(ui) + 1;
    var w := ViewInMonSpec(v, ui, overview);
    assert w == WithSelected(v, 1 - v.seltags, TagBits(ui)).(curtag := cur, prevtag := w.prevtag);
    assert w.prevtag == v.prevtag || w.prevtag == v.curtag;
  }

  /** A view keeps the tag view well-formed. */
  lemma ViewKeepsValid(v: TagView, ui: bv32, overview: bool)
    requires ValidView(v)
    ensures ValidView(ViewInMonSpec(v, ui, overview))
  {
    var w := ViewInMonSpec(v, ui, overview);
    if ViewIgnored(ui, overview) {
      assert w == v;
    } else if TagBits(ui) != 0 {
      assert w.seltags == 1 - v.seltags && w.curtag == ViewCurtag(ui);
      assert w.prevtag == v.prevtag || w.prevtag == v.curtag;
    } else {
      assert w == v.(seltags := 1 - v.seltags, curtag := v.prevtag, prevtag := v.curtag);
    }
  }

  /** Viewing a mask without tag bits right after a view goes back: the
    * previous tagset slot is selected again and current and previous tag
    * swap back. */
  lemma ViewThenBack(v: TagView, ui: bv32, back: bv32)
    requires ValidView(v)
    requires ui != 0 && TagBits(ui) != 0
    requires back != 0 && TagBits(back) == 0
    ensures var w := ViewInMonSpec(v, ui, false);
            var u := ViewInMonSpec(w, back, false);
            u.seltags == v.seltags && u.Selected() == v.Selected()
            && u.curtag == w.prevtag && u.prevtag == w.curtag
  {
  }

  /** `viewtoleft`: `None` when it returns early, else the new view. */
  function ViewToLeftSpec(v: TagView, overview: bool): Option<TagView>
    requires v.seltags <= 1
  {
    var target := Shr1(v.Selected());
    if overview || v.curtag == 0 || target == 0 || target == v.Selected() then None
    else Some(WithSelected(v, 1 - v.seltags, target).(prevtag := v.curtag, curtag := v.curtag - 1))
  }

  lemma ViewToLeftShifts(v: TagView, overview: bool)
    requires ValidView(v)
    requires ViewToLeftSpec(v, overview).Some?
    ensures ValidView(ViewToLeftSpec(v, overview).value)
    ensures ViewToLeftSpec(v, overview).value.Selected() == Shr1(v.Selected())
    ensures ViewToLeftSpec(v, overview).value.curtag == v.curtag - 1
    ensures ViewToLeftSpec(v, overview).value.prevtag == v.curtag
  {
  }

  /** `viewtoright` as written: the current tag index always moves up by
    * one, even when the shifted tagset still holds tags below the last. */
  function ViewToRightAsWritten(v: TagView, overview: bool): Option<TagView>
    requires v.seltags <= 1
  {
    var target := Shl1(v.Selected());
    if overview || v.curtag == 0 || target == v.Selected() || TagBits(target) == 0 then None
    else Some(WithSelected(v, 1 - v.seltags, target).(prevtag := v.curtag, curtag := v.curtag + 1))
  }

  /** With tags 8 and 9 shown and tag 9 current, `viewtoright` sets the
    * current tag index to 10, past the end of the pertag arrays. */
  lemma ViewToRightOverflows()
    ensures var v := TagView(0, 0x180, 0x100, 9, 8);
            ViewToRightAsWritten(v, false).Some?
            && ViewToRightAsWritten(v, false).value.curtag == TAG_COUNT + 1
            && !ValidView(ViewToRightAsWritten(v, false).value)
  {
    var v := TagView(0, 0x180, 0x100, 9, 8);
    assert Shl1(v.Selected()) == 0x300;
    assert TagBits(0x300) == 0x100;
  }

  /** `viewtoright` with the index capped at LENGTH(tags), as its sibling
    * `viewtoright_have_client` does. */
  function ViewToRightSpec(v: TagView, overview: bool): Option<TagView>
    requires v.seltags <= 1
  {
    var target := Shl1(v.Selected());
    if overview || v.curtag == 0 || target == v.Selected() || TagBits(target) == 0 then None
    else
      var next := if v.curtag + 1 > TAG_COUNT then TAG_COUNT else v.curtag + 1;
      Some(WithSelected(v, 1 - v.seltags, target).(prevtag := v.curtag, curtag := next))
  }

  lemma ViewToRightKeepsValid(v: TagView, overview: bool)
    requires ValidView(v)
    requires ViewToRightSpec(v, overview).Some?
    ensures ValidView(ViewToRightSpec(v, overview).value)
    ensures ViewToRightSpec(v, overview).value.Selected() == Shl1(v.Selected())
    ensures ViewToRightSpec(v, overview).value.prevtag == v.curtag
  {
  }

  /** The search of `viewtoright_have_client` from `target` (already
    * shifted once) with step count `n`: the first shifted mask that meets an
    * occupied tag, or the first that leaves the tag bits, or the mask
    * reached after LENGTH(tags) steps. */
  function ScanRight(occupied: bv32, target: bv32, n: nat): (r: (bv32, nat))
    requires 1 <= n <= TAG_COUNT + 1
    ensures n <= r.1 <= TAG_COUNT + 1
    decreases TAG_COUNT + 1 - n
  {
    if TagBits(target) != 0 && n <= TAG_COUNT && !Meets(target, occupied)
    then ScanRight(occupied, Shl1(target), n + 1)
    else (target, n)
  }

  /** The same search to the left (`viewtoleft_have_client`). */
  function ScanLeft(occupied: bv32, target: bv32, n: nat): (r: (bv32, nat))
    requires 1 <= n <= TAG_COUNT + 1
    ensures n <= r.1 <= TAG_COUNT + 1
    decreases TAG_COUNT + 1 - n
  {
    if target != 0 && n <= TAG_COUNT && !Meets(target, occupied)
    then ScanLeft(occupied, Shr1(target), n + 1)
    else (target, n)
  }

  /** `viewtoright_have_client` given the union of the tags of the
    * monitor's clients. */
  function ViewToRightHaveClientSpec(v: TagView, overview: bool, occupied: bv32): Option<TagView>
    requires v.seltags <= 1
  {
    if overview || v.curtag == 0 then None
    else
      var (target, n) := ScanRight(occupied, Shl1(v.Selected()), 1);
      if TagBits(target) == 0 || target == v.Selected() then None
      else
        var next := if v.curtag + n > TAG_COUNT then TAG_COUNT else v.curtag + n;
        Some(WithSelected(v, 1 - v.seltags, target).(prevtag := v.curtag, curtag := next))
  }

  /** `viewtoleft_have_client` given the union of the tags of the monitor's
    * clients. */
  function ViewToLeftHaveClientSpec(v: TagView, overview: bool, occupied: bv32): Option<TagView>
    requires v.seltags <= 1
  {
    if overview || v.curtag == 0 then None
    else
      var (target, n) := ScanLeft(occupied, Shr1(v.Selected()), 1);
      if target == 0 || target == v.Selected() then None
      else
        var next := if v.curtag - n < 1 then 1 else v.curtag - n;
        Some(WithSelected(v, 1 - v.seltags, target).(prevtag := v.curtag, curtag := next))
  }

  lemma {:induction false} ScanRightFindsOccupied(occupied: bv32, target: bv32, n: nat)
    requires 1 <= n <= TAG_COUNT + 1
    ensures var r := ScanRight(occupied, target, n);
            TagBits(r.0) == 0 || r.1 > TAG_COUNT || Meets(r.0, occupied)
    decreases TAG_COUNT + 1 - n
  {
    if TagBits(target) != 0 && n <= TAG_COUNT && !Meets(target, occupied) {
      ScanRightFindsOccupied(occupied, Shl1(target), n + 1);
    }
  }

  /** When `viewtoright_have_client` moves, the view it selects holds an
    * occupied tag or the search ran out of steps, and it stays well-formed. */
  lemma ViewToRightHaveClientLandsOnClient(v: TagView, overview: bool, occupied: bv32)
    requires ValidView(v)
    requires ViewToRightHaveClientSpec(v, overview, occupied).Some?
    ensures ValidView(ViewToRightHaveClientSpec(v, overview, occupied).value)
    ensures var r := ScanRight(occupied, Shl1(v.Selected()), 1);
            ViewToRightHaveClientSpec(v, overview, occupied).value.Selected() == r.0
            && (Meets(r.0, occupied) || r.1 > TAG_COUNT)
  {
    ScanRightFindsOccupied(occupied, Shl1(v.Selected()), 1);
  }

  lemma {:induction false} ScanLeftFindsOccupied(occupied: bv32, target: bv32, n: nat)
    requires 1 <= n <= TAG_COUNT + 1
    ensures var r := ScanLeft(occupied, target, n);
            r.0 == 0 || r.1 > TAG_COUNT || Meets(r.0, occupied)
    decreases TAG_COUNT + 1 - n
  {
    if target != 0 && n <= TAG_COUNT && !Meets(target, occupied) {
      ScanLeftFindsOccupied(occupied, Shr1(target), n + 1);
    }
  }

  lemma ViewToLeftHaveClientLandsOnClient(v: TagView, overview: bool, occupied: bv32)
    requires ValidView(v)
    requires ViewToLeftHaveClientSpec(v, overview, occupied).Some?
    ensures ValidView(ViewToLeftHaveClientSpec(v, overview, occupied).value)
    ensures var r := ScanLeft(occupied, Shr1(v.Selected()), 1);
            ViewToLeftHaveClientSpec(v, overview, occupied).value.Selected() == r.0
            && (Meets(r.0, occupied) || r.1 > TAG_COUNT)
  {
    ScanLeftFindsOccupied(occupied, Shr1(v.Selected()), 1);
  }

  /** `toggleview` / `toggletag`: flip the requested tag bits, refusing an
    * empty result. */
  function Toggle(x: bv32, ui: bv32): (r: Option<bv32>)
    ensures r.Some? <==> x ^ TagBits(ui) != 0
    ensures r.Some? ==> r.value ^ x == TagBits(ui)
  {
    var n := x ^ TagBits(ui);
    if n != 0 then Some(n) else None
  }

  /** Toggling the same tags twice restores the original mask. */
  lemma ToggleInvolution(x: bv32, ui: bv32)
    requires x != 0 && Toggle(x, ui).Some?
    ensures Toggle(Toggle(x, ui).value, ui) == Some(x)
  {
  }

  function BitCount(x: bv32, k: nat): nat
    requires k < TAG_COUNT
  {
    if HasBit(x, k) then 1 else 0
  }

  /** `__builtin_popcount(TagBits(x))`: the number of tag bits set. */
  function PopCountTags(x: bv32): nat {
    BitCount(x, 0) + BitCount(x, 1) + BitCount(x, 2) + BitCount(x, 3) + BitCount(x, 4)
    + BitCount(x, 5) + BitCount(x, 6) + BitCount(x, 7) + BitCount(x, 8)
  }

  /** `tagtoleft`: the mask `tag()` is called with, if any. */
  function TagToLeftTarget(hasSel: bool, selected: bv32): Option<bv32> {
    if hasSel && PopCountTags(selected) == 1 && selected > 1 then Some(Shr1(selected)) else None
  }

  /** `tagtoright`: the mask `tag()` is called with, if any. */
  function TagToRightTarget(hasSel: bool, selected: bv32): Option<bv32> {
    if hasSel && PopCountTags(selected) == 1 && Meets(selected, Shr1(TAGMASK))
    then Some(Shl1(selected)) else None
  }

  /** Moving a window one tag to the left or right from a single shown tag
    * targets the neighbouring tag. */
  lemma TagToNeighbour(k: nat)
    requires k < TAG_COUNT
    ensures k > 0 ==> TagToLeftTarget(true, Bit(k)) == Some(Bit(k - 1))
    ensures k == 0 ==> TagToLeftTarget(true, Bit(k)).None?
    ensures k < TAG_COUNT - 1 ==> TagToRightTarget(true, Bit(k)) == Some(Bit(k + 1))
    ensures k == TAG_COUNT - 1 ==> TagToRightTarget(true, Bit(k)).None?
  {
    assert PopCountTags(Bit(k)) == 1;
  }

  /** `get_tags_first_tag` for a nonzero mask: the mask of its lowest tag,
    * or of the last tag when none of the tag bits is set. */
  function FirstTagMask(source: bv32): (r: bv32)
    requires source != 0
  {
    var k := LowestTag(source);
    if k < TAG_COUNT then Bit(k) else Bit(TAG_COUNT - 1)
  }

  lemma FirstTagMaskIsLowest(source: bv32)
    requires TagBits(source) != 0
    ensures FirstTagMask(source) & source != 0
    ensures exists k :: IsLowestTag(source, k) && FirstTagMask(source) == Bit(k)
  {
    LowestTagIsLowest(source);
  }
}
