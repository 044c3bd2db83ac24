/** The tag and per-tag parameter commands of a monitor, as methods that
  * update the monitor's fields in place.  Each one is proved against a
  * function of the `Tags` module or a small function below; the call to
  * `arrange` that ends most of them is reported through the result. */
module TagOps {
  import opened CNum
  import opened Opt
  import opened State
  import opened Tags

  /** The tag view after a command that either returns early (`None`) or
    * moves to a new view. */
  function ViewOr(r: Option<TagView>, v: TagView): TagView {
    if r.Some? then r.value else v
  }

  /** The loop of `view_in_mon` that finds the lowest tag of `ui`. */
  method ScanLowestTag(ui: bv32) returns (i: nat)
    ensures i == LowestTag(ui)
  {
    i := 0;
    while !HasBit(ui, i) && i < TAG_COUNT
      invariant i <= TAG_COUNT
      invariant LowestFrom(ui, i) == LowestTag(ui)
      decreases TAG_COUNT - i
    {
      i := i + 1;
    }
  }

  /** `view_in_mon(ui, want_animation, m)`.  The result is the animation
    * flag `arrange` is called with, or `None` when it returns early. */
  method ViewInMon(m: Monitor?, ui: bv32, wantAnimation: bool) returns (arranged: Option<bool>)
    requires m != null ==> m.Valid()
    modifies {m}`seltags, {m}`tagset0, {m}`tagset1, {m}`curtag, {m}`prevtag
    ensures m == null ==> arranged.None?
    ensures m != null ==> m.Valid() && m.Tags() == ViewInMonSpec(old(m.Tags()), ui, m.isoverview)
    ensures m != null ==> (arranged.Some? <==> !ViewIgnored(ui, m.isoverview))
    ensures m != null && arranged.Some? ==> arranged.value == ViewWantsAnimation(old(m.Tags()), ui, wantAnimation)
  {
    if m == null || (ui != ALL_TAGS && m.isoverview) {
      return None;
    }
    if ui == 0 {
      return None;
    }
    var animate := wantAnimation;
    if Meets(m.SelectedTags(), TagBits(ui)) {
      animate := false;
    }
    if TagBits(ui) != 0 {
      var cur := NewCurtag(ui);
      SelectTags(m, TagBits(ui), cur);
    } else {
      SwapBack(m);
    }
    return Some(animate);
  }

  /** The branch of `view_in_mon` for a mask with tag bits: select `mask`
    * in the other tagset slot and make `cur` current, remembering the old
    * current tag unless it is `cur` already. */
  method SelectTags(m: Monitor, mask: bv32, cur: nat)
    requires m.Valid() && cur <= TAG_COUNT
    modifies m`seltags, m`tagset0, m`tagset1, m`curtag, m`prevtag
    ensures m.Valid()
    ensures m.Tags() == WithSelected(old(m.Tags()), 1 - old(m.seltags), mask).(
              curtag := cur, prevtag := if old(m.curtag) == cur then old(m.prevtag) else old(m.curtag))
  {
    m.seltags := 1 - m.seltags;
    if m.seltags == 0 {
      m.tagset0 := mask;
    } else {
      m.tagset1 := mask;
    }
    var tmptag := m.curtag;
    m.curtag := cur;
    m.prevtag := if tmptag == m.curtag then m.prevtag else tmptag;
  }

  /** The pertag index the selection makes current: 0 for the all-tags
    * argument, else one more than the lowest tag the scan finds. */
  method NewCurtag(ui: bv32) returns (cur: nat)
    ensures cur == ViewCurtag(ui)
  {
    if ui == ALL_TAGS {
      cur := 0;
    } else {
      var i := ScanLowestTag(ui);
      cur := if i >= TAG_COUNT then TAG_COUNT else i + 1;
    }
  }

  /** The branch of `view_in_mon` for a mask without tag bits: go back to
    * the other tagset slot and swap current and previous tag. */
  method SwapBack(m: Monitor)
    requires m.Valid()
    modifies m`seltags, m`curtag, m`prevtag
    ensures m.Valid()
    ensures m.seltags == 1 - old(m.seltags) && m.curtag == old(m.prevtag) && m.prevtag == old(m.curtag)
  {
    m.seltags := 1 - m.seltags;
    var tmptag := m.prevtag;
    m.prevtag := m.curtag;
    m.curtag := tmptag;
  }

  /** The common tail of the four view-to commands: select `target` in
    * the other tagset slot, remember the current tag as the previous one
    * and make `next` current. */
  method MoveTo(m: Monitor, target: bv32, next: nat)
    requires m.Valid() && next <= TAG_COUNT
    modifies m`seltags, m`tagset0, m`tagset1, m`curtag, m`prevtag
    ensures m.Valid()
    ensures m.Tags() == WithSelected(old(m.Tags()), 1 - old(m.seltags), target).(prevtag := old(m.curtag), curtag := next)
  {
    m.seltags := 1 - m.seltags;
    if m.seltags == 0 {
      m.tagset0 := target;
    } else {
      m.tagset1 := target;
    }
    m.prevtag := m.curtag;
    m.curtag := next;
  }

  /** `viewtoleft` on the selected monitor; `true` when it rearranges. */
  method ViewToLeft(m: Monitor) returns (arranged: bool)
    requires m.Valid()
    modifies m`seltags, m`tagset0, m`tagset1, m`curtag, m`prevtag
    ensures m.Valid()
    ensures m.Tags() == ViewOr(ViewToLeftSpec(old(m.Tags()), m.isoverview), old(m.Tags()))
    ensures arranged <==> ViewToLeftSpec(old(m.Tags()), m.isoverview).Some?
  {
    if m.isoverview || m.curtag == 0 {
      return false;
    }
    var target := Shr1(m.SelectedTags());
    if target == 0 || target == m.SelectedTags() {
      return false;
    }
    MoveTo(m, target, m.curtag - 1);
    return true;
  }

  /** `viewtoright`, with the current tag index capped at LENGTH(tags). */
  method ViewToRight(m: Monitor) returns (arranged: bool)
    requires m.Valid()
    modifies m`seltags, m`tagset0, m`tagset1, m`curtag, m`prevtag
    ensures m.Valid()
    ensures m.Tags() == ViewOr(ViewToRightSpec(old(m.Tags()), m.isoverview), old(m.Tags()))
    ensures arranged <==> ViewToRightSpec(old(m.Tags()), m.isoverview).Some?
  {
    if m.isoverview || m.curtag == 0 {
      return false;
    }
    var target := Shl1(m.SelectedTags());
    if target == m.SelectedTags() || TagBits(target) == 0 {
      return false;
    }
    MoveTo(m, target, if m.curtag + 1 > TAG_COUNT then TAG_COUNT else m.curtag + 1);
    return true;
  }

  /** `a | b`. */
  function Union(a: bv32, b: bv32): bv32 { a | b }

  /** Each direction of `MeetsUnion` on its own, stated without
    * hypotheses so that the solver proves it on the bits alone. */
  lemma MeetsLeft(t: bv32, a: bv32, b: bv32)
    ensures Meets(t, a) ==> Meets(t, Union(a, b))
  {
  }

  lemma MeetsRight(t: bv32, a: bv32, b: bv32)
    ensures Meets(t, b) ==> Meets(t, Union(a, b))
  {
  }

  lemma MeetsSplit(t: bv32, a: bv32, b: bv32)
    ensures Meets(t, Union(a, b)) ==> Meets(t, a) || Meets(t, b)
  {
  }

  /** A mask meets a union exactly when it meets one of its parts. */
  lemma MeetsUnion(t: bv32, a: bv32, b: bv32)
    ensures Meets(t, Union(a, b)) <==> Meets(t, a) || Meets(t, b)
  {
    MeetsLeft(t, a, b);
    MeetsRight(t, a, b);
    MeetsSplit(t, a, b);
  }

  /** The union of the tags of the clients in `cs` that are on `m`. */
  function Occupied(cs: seq<Client>, m: Monitor): bv32
    reads cs
  {
    if |cs| == 0 then 0
    else Union(Occupied(cs[..|cs| - 1], m), if cs[|cs| - 1].mon == m then cs[|cs| - 1].tags else 0)
  }

  /** A tag is occupied when one of the clients on the monitor carries it. */
  lemma {:induction false} OccupiedMeets(cs: seq<Client>, m: Monitor, target: bv32)
    ensures Meets(target, Occupied(cs, m))
            <==> exists i :: 0 <= i < |cs| && cs[i].mon == m && Meets(target, cs[i].tags)
  {
    if |cs| == 0 {
      assert !Meets(target, 0);
    } else {
      var init := cs[..|cs| - 1];
      OccupiedMeets(init, m, target);
      var last: bv32 := if cs[|cs| - 1].mon == m then cs[|cs| - 1].tags else 0;
      MeetsUnion(target, Occupied(init, m), last);
      assert !Meets(target, 0);
      if Meets(target, Occupied(init, m)) {
        var i :| 0 <= i < |init| && init[i].mon == m && Meets(target, init[i].tags);
        assert cs[i] == init[i];
      }
      if exists i :: 0 <= i < |cs| && cs[i].mon == m && Meets(target, cs[i].tags) {
        var i :| 0 <= i < |cs| && cs[i].mon == m && Meets(target, cs[i].tags);
        if i < |init| {
          assert init[i] == cs[i];
        }
      }
    }
  }

  /** The inner search of the `*_have_client` commands: does a client on
    * `m` carry one of the tags in `target`? */
  method AnyClientOn(clients: seq<Client>, m: Monitor, target: bv32) returns (found: bool)
    ensures found <==> Meets(target, Occupied(clients, m))
  {
    found := false;
    var j := 0;
    while j < |clients| && !found
      invariant 0 <= j <= |clients|
      invariant found <==> exists i :: 0 <= i < j && clients[i].mon == m && Meets(target, clients[i].tags)
    {
      if clients[j].mon == m && Meets(target, clients[j].tags) {
        found := true;
      }
      j := j + 1;
    }
    OccupiedMeets(clients, m, target);
  }

  /** The search loop of `viewtoright_have_client`, starting from the
    * shifted tagset. */
  method SearchRight(m: Monitor, clients: seq<Client>, start: bv32) returns (target: bv32, n: nat)
    ensures (target, n) == ScanRight(Occupied(clients, m), start, 1)
  {
    ghost var occupied := Occupied(clients, m);
    n := 1;
    target := start;
    while TagBits(target) != 0 && n <= TAG_COUNT
      invariant 1 <= n <= TAG_COUNT + 1
      invariant ScanRight(occupied, target, n) == ScanRight(occupied, start, 1)
      decreases TAG_COUNT + 1 - n
    {
      var found := AnyClientOn(clients, m, target);
      if found {
        break;
      }
      target, n := Shl1(target), n + 1;
    }
  }

  /** The search loop of `viewtoleft_have_client`. */
  method SearchLeft(m: Monitor, clients: seq<Client>, start: bv32) returns (target: bv32, n: nat)
    ensures (target, n) == ScanLeft(Occupied(clients, m), start, 1)
  {
    ghost var occupied := Occupied(clients, m);
    n := 1;
    target := start;
    while target != 0 && n <= TAG_COUNT
      invariant 1 <= n <= TAG_COUNT + 1
      invariant ScanLeft(occupied, target, n) == ScanLeft(occupied, start, 1)
      decreases TAG_COUNT + 1 - n
    {
      var found := AnyClientOn(clients, m, target);
      if found {
        break;
      }
      target, n := Shr1(target), n + 1;
    }
  }

  /** `viewtoright_have_client`: move right to the nearest tag that holds a
    * client of the monitor. */
  method ViewToRightHaveClient(m: Monitor, clients: seq<Client>) returns (arranged: bool)
    requires m.Valid()
    modifies m`seltags, m`tagset0, m`tagset1, m`curtag, m`prevtag
    ensures m.Valid()
    ensures m.Tags() == ViewOr(ViewToRightHaveClientSpec(old(m.Tags()), m.isoverview, old(Occupied(clients, m))), old(m.Tags()))
    ensures arranged <==> ViewToRightHaveClientSpec(old(m.Tags()), m.isoverview, old(Occupied(clients, m))).Some?
  {
    if m.isoverview || m.curtag == 0 {
      return false;
    }
    ghost var v := m.Tags();
    assert v.Selected() == m.SelectedTags();
    var target, n := SearchRight(m, clients, Shl1(m.SelectedTags()));
    if TagBits(target) == 0 || target == m.SelectedTags() {
      return false;
    }
    MoveTo(m, target, if m.curtag + n > TAG_COUNT then TAG_COUNT else m.curtag + n);
    assert m.Tags() == ViewToRightHaveClientSpec(v, m.isoverview, old(Occupied(clients, m))).value;
    return true;
  }

  /** `viewtoleft_have_client`: move left to the nearest tag that holds a
    * client of the monitor. */
  method ViewToLeftHaveClient(m: Monitor, clients: seq<Client>) returns (arranged: bool)
    requires m.Valid()
    modifies m`seltags, m`tagset0, m`tagset1, m`curtag, m`prevtag
    ensures m.Valid()
    ensures m.Tags() == ViewOr(ViewToLeftHaveClientSpec(old(m.Tags()), m.isoverview, old(Occupied(clients, m))), old(m.Tags()))
    ensures arranged <==> ViewToLeftHaveClientSpec(old(m.Tags()), m.isoverview, old(Occupied(clients, m))).Some?
  {
    if m.isoverview || m.curtag == 0 {
      return false;
    }
    ghost var v := m.Tags();
    assert v.Selected() == m.SelectedTags();
    var target, n := SearchLeft(m, clients, Shr1(m.SelectedTags()));
    if target == 0 || target == m.SelectedTags() {
      return false;
    }
    MoveTo(m, target, if m.curtag - n < 1 then 1 else m.curtag - n);
    assert m.Tags() == ViewToLeftHaveClientSpec(v, m.isoverview, old(Occupied(clients, m))).value;
    return true;
  }

  /** `toggleview`: flip tags in the selected tagset unless that would
    * empty it. */
  method ToggleView(m: Monitor, ui: bv32) returns (arranged: bool)
    modifies m`tagset0, m`tagset1
    ensures arranged <==> Toggle(old(m.SelectedTags()), ui).Some?
    ensures m.SelectedTags() == if arranged then Toggle(old(m.SelectedTags()), ui).value else old(m.SelectedTags())
    ensures m.seltags == 0 ==> m.tagset1 == old(m.tagset1)
    ensures m.seltags != 0 ==> m.tagset0 == old(m.tagset0)
  {
    var newtagset := Toggle(m.SelectedTags(), ui);
    if newtagset.Some? {
      if m.seltags == 0 {
        m.tagset0 := newtagset.value;
      } else {
        m.tagset1 := newtagset.value;
      }
      return true;
    }
    return false;
  }

  /** `toggletag` on the focused client (`None` when there is none). */
  method ToggleTag(sel: Client?, ui: bv32) returns (arranged: bool)
    modifies {sel}`tags
    ensures sel == null ==> !arranged
    ensures sel != null ==> (arranged <==> Toggle(old(sel.tags), ui).Some?)
    ensures sel != null ==> sel.tags == if arranged then Toggle(old(sel.tags), ui).value else old(sel.tags)
  {
    if sel == null {
      return false;
    }
    var newtags := Toggle(sel.tags, ui);
    if newtags.Some? {
      sel.tags := newtags.value;
      return true;
    }
    return false;
  }

  /** `MAX(n + i, 0)`: the master count `incnmaster` stores. */
  function IncNmasterValue(n: int, i: int): (r: int)
    ensures r >= 0
    ensures n + i >= 0 ==> r == n + i
    ensures n + i < 0 ==> r == 0
  {
    Max(n + i, 0)
  }

  /** `incnmaster`: change the current tag's master count. */
  method IncNmaster(m: Monitor, i: int)
    requires m.Valid()
    modifies m`nmasters
    ensures m.Valid()
    ensures m.nmasters == old(m.nmasters)[m.curtag := IncNmasterValue(old(m.nmasters)[m.curtag], i)]
  {
    m.nmasters := m.nmasters[m.curtag := Max(m.nmasters[m.curtag] + i, 0)];
  }

  /** Repeated decrements never take a master count below zero, and an
    * increment after a decrement past zero starts again from zero. */
  lemma IncNmasterFloor(n: int, i: int, j: int)
    requires n >= 0 && i < 0 && n + i < 0 && j >= 0
    ensures IncNmasterValue(IncNmasterValue(n, i), j) == j
  {
  }

  /** `setgaps`: each gap is stored clamped at zero. */
  method SetGaps(m: Monitor, oh: int, ov: int, ih: int, iv: int)
    modifies m`gappoh, m`gappov, m`gappih, m`gappiv
    ensures m.gappoh == GeZero(oh) && m.gappov == GeZero(ov)
    ensures m.gappih == GeZero(ih) && m.gappiv == GeZero(iv)
    ensures m.gappoh >= 0 && m.gappov >= 0 && m.gappih >= 0 && m.gappiv >= 0
  {
    m.gappoh := Max(oh, 0);
    m.gappov := Max(ov, 0);
    m.gappih := Max(ih, 0);
    m.gappiv := Max(iv, 0);
  }

  /** The factor `setmfact`/`setsmfact` would store: an argument below 1.0
    * is added to the current factor, one of 1.0 or more is the new factor
    * plus 1.0; results outside [0.1, 0.9] are refused. */
  function FactStep(arg: real, cur: real): (r: Option<real>)
    ensures r.Some? ==> 0.1 <= r.value <= 0.9
    ensures arg < 1.0 && 0.1 <= arg + cur <= 0.9 ==> r == Some(arg + cur)
    ensures arg >= 1.0 && 0.1 <= arg - 1.0 <= 0.9 ==> r == Some(arg - 1.0)
  {
    var f := if arg < 1.0 then arg + cur else arg - 1.0;
    if f < 0.1 || f > 0.9 then None else Some(f)
  }

  /** Stepping a factor by `d` and back by `-d` restores it when both steps
    * stay in range. */
  lemma FactStepInverse(cur: real, d: real)
    requires 0.1 <= cur <= 0.9 && -1.0 < d < 1.0 && -1.0 < -d < 1.0
    requires FactStep(d, cur).Some?
    ensures FactStep(-d, FactStep(d, cur).value) == Some(cur)
  {
  }

  /** `setmfact`. */
  method SetMfact(m: Monitor, arg: real) returns (arranged: bool)
    requires m.Valid()
    modifies m`mfacts
    ensures m.Valid()
    ensures var f := FactStep(arg, old(m.mfacts)[m.curtag]);
            arranged <==> m.CurrentLayout().arrange != NoArrange && f.Some?
    ensures var f := FactStep(arg, old(m.mfacts)[m.curtag]);
            m.mfacts == if arranged then old(m.mfacts)[m.curtag := f.value] else old(m.mfacts)
  {
    if m.CurrentLayout().arrange == NoArrange {
      return false;
    }
    var f := if arg < 1.0 then arg + m.mfacts[m.curtag] else arg - 1.0;
    if f < 0.1 || f > 0.9 {
      return false;
    }
    m.mfacts := m.mfacts[m.curtag := f];
    return true;
  }

  /** `setsmfact`. */
  method SetSmfact(m: Monitor, arg: real) returns (arranged: bool)
    requires m.Valid()
    modifies m`smfacts
    ensures m.Valid()
    ensures var f := FactStep(arg, old(m.smfacts)[m.curtag]);
            arranged <==> m.CurrentLayout().arrange != NoArrange && f.Some?
    ensures var f := FactStep(arg, old(m.smfacts)[m.curtag]);
            m.smfacts == if arranged then old(m.smfacts)[m.curtag := f.value] else old(m.smfacts)
  {
    if m.CurrentLayout().arrange == NoArrange {
      return false;
    }
    var f := if arg < 1.0 then arg + m.smfacts[m.curtag] else arg - 1.0;
    if f < 0.1 || f > 0.9 {
      return false;
    }
    m.smfacts := m.smfacts[m.curtag := f];
    return true;
  }

  /** `x >> i` for the shift amounts the tag scans use. */
  function ShrBy(x: bv32, i: nat): bv32
    requires i < TAG_COUNT
  {
    match i
    case 0 => x case 1 => x >> 1 case 2 => x >> 2 case 3 => x >> 3 case 4 => x >> 4
    case 5 => x >> 5 case 6 => x >> 6 case 7 => x >> 7 case _ => x >> 8
  }

  predicate LowBit(x: bv32) { x & 1 != 0 }

  lemma ShrLowBit0(x: bv32) ensures LowBit(ShrBy(x, 0)) <==> x & 0x1 != 0 {}
  lemma ShrLowBit1(x: bv32) ensures LowBit(ShrBy(x, 1)) <==> x & 0x2 != 0 {}
  lemma ShrLowBit2(x: bv32) ensures LowBit(ShrBy(x, 2)) <==> x & 0x4 != 0 {}
  lemma ShrLowBit3(x: bv32) ensures LowBit(ShrBy(x, 3)) <==> x & 0x8 != 0 {}
  lemma ShrLowBit4(x: bv32) ensures LowBit(ShrBy(x, 4)) <==> x & 0x10 != 0 {}
  lemma ShrLowBit5(x: bv32) ensures LowBit(ShrBy(x, 5)) <==> x & 0x20 != 0 {}
  lemma ShrLowBit6(x: bv32) ensures LowBit(ShrBy(x, 6)) <==> x & 0x40 != 0 {}
  lemma ShrLowBit7(x: bv32) ensures LowBit(ShrBy(x, 7)) <==> x & 0x80 != 0 {}
  lemma ShrLowBit8(x: bv32) ensures LowBit(ShrBy(x, 8)) <==> x & 0x100 != 0 {}

  /** Bit 0 of `x >> k` is tag bit `k` of `x`. */
  lemma ShrByLowBit(x: bv32, k: nat)
    requires k < TAG_COUNT
    ensures LowBit(ShrBy(x, k)) <==> HasBit(x, k)
  {
    if k == 0 { ShrLowBit0(x); }
    else if k == 1 { ShrLowBit1(x); }
    else if k == 2 { ShrLowBit2(x); }
    else if k == 3 { ShrLowBit3(x); }
    else if k == 4 { ShrLowBit4(x); }
    else if k == 5 { ShrLowBit5(x); }
    else if k == 6 { ShrLowBit6(x); }
    else if k == 7 { ShrLowBit7(x); }
    else { ShrLowBit8(x); }
  }

  /** The scan stops at a set bit below which every bit is clear. */
  lemma LowestTagAt(x: bv32, k: nat)
    requires k < TAG_COUNT && HasBit(x, k)
    requires forall j :: 0 <= j < k ==> !HasBit(x, j)
    ensures LowestTag(x) == k
  {
    LowestFromSkipsClear(x, 0);
  }

  lemma LowestTagNone(x: bv32)
    requires forall j :: 0 <= j < TAG_COUNT ==> !HasBit(x, j)
    ensures LowestTag(x) == TAG_COUNT
  {
    LowestFromSkipsClear(x, 0);
  }

  /** `get_tags_first_tag`: the current tag index of the monitor for an
    * empty mask, else the mask of the lowest tag (the last tag when no tag
    * bit is set). */
  method GetTagsFirstTag(m: Monitor, source: bv32) returns (r: bv32)
    requires m.Valid()
    ensures source == 0 ==> r == m.curtag as bv32
    ensures source != 0 ==> r == FirstTagMask(source)
  {
    if source == 0 {
      return m.curtag as bv32;
    }
    var i: nat := 0;
    var tag: bv32 := 0;
    while !LowBit(tag) && source != 0 && i < TAG_COUNT
      invariant i <= TAG_COUNT
      invariant i == 0 ==> tag == 0
      invariant i > 0 ==> tag == ShrBy(source, i - 1)
      invariant forall j :: 0 <= j < i - 1 ==> !HasBit(source, j)
      decreases TAG_COUNT - i
    {
      if i > 0 {
        ShrByLowBit(source, i - 1);
      }
      tag := ShrBy(source, i);
      i := i + 1;
    }
    ShrByLowBit(source, i - 1);
    if LowBit(tag) {
      LowestTagAt(source, i - 1);
    } else {
      LowestTagNone(source);
    }
    // The source's further branch for `i > 9` cannot be taken: the scan
    // stops at LENGTH(tags).
    if i == 1 {
      r := 1;
    } else {
      r := Bit(i - 1);
    }
  }
}
