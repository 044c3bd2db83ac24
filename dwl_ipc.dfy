/** The state side of the dwl-ipc-unstable-v2 output object
  * (`src/ext-protocol/dwl-ipc.h`): the per-tag summary a status update
  * reports, and the three requests that change a monitor's tags, a
  * client's tags and a monitor's layout.  The events themselves, the
  * title/appid/geometry fields of a status update and the `arrange`,
  * `focusclient` and `printstatus` calls that follow a request are not
  * modelled.  An inert resource is a `null` monitor. */
module DwlIpc {
  import opened Opt
  import opened State
  import opened Tags
  import opened TagOps

  /** `ZDWL_IPC_OUTPUT_V2_TAG_STATE_*`. */
  const TAG_STATE_ACTIVE: bv32 := 1
  const TAG_STATE_URGENT: bv32 := 2

  /** One `tag` event: the state bits, the number of clients and whether
    * the focused client is among them. */
  datatype TagStatus = TagStatus(active: bool, urgent: bool, numclients: nat, focused: bool)

  /** The `state` argument of the event. */
  function StateBits(t: TagStatus): (b: bv32)
    ensures (b & TAG_STATE_ACTIVE != 0) == t.active && (b & TAG_STATE_URGENT != 0) == t.urgent
    ensures b & !3 == 0
  {
    (if t.active then TAG_STATE_ACTIVE else 0) | (if t.urgent then TAG_STATE_URGENT else 0)
  }

  /** The loop's `tagmask = 1 << tag`, tag by tag. */
  const TAG_MASKS: seq<bv32> := [1, 2, 4, 8, 16, 32, 64, 128, 256]

  /** A client counted for tag `k` of monitor `m`. */
  predicate CountedFor(c: Client, m: Monitor, k: nat)
    requires k < TAG_COUNT
    reads c`mon, c`tags
  {
    c.mon == m && Meets(c.tags, TAG_MASKS[k])
  }

  /** The number of clients the loop counts for tag `k`. */
  function CountOn(cs: seq<Client>, m: Monitor, k: nat): (n: nat)
    requires k < TAG_COUNT
    reads cs
    ensures n <= |cs|
    ensures n == 0 <==> forall i :: 0 <= i < |cs| ==> !CountedFor(cs[i], m, k)
  {
    if |cs| == 0 then 0
    else
      var init := cs[..|cs| - 1];
      assert forall i :: 0 <= i < |init| ==> init[i] == cs[i];
      CountOn(init, m, k) + (if CountedFor(cs[|cs| - 1], m, k) then 1 else 0)
  }

  /** Some counted client is urgent. */
  function AnyUrgent(cs: seq<Client>, m: Monitor, k: nat): (b: bool)
    requires k < TAG_COUNT
    reads cs
    ensures b <==> exists i :: 0 <= i < |cs| && CountedFor(cs[i], m, k) && cs[i].props.isurgent
  {
    if |cs| == 0 then false
    else
      var init := cs[..|cs| - 1];
      assert forall i :: 0 <= i < |init| ==> init[i] == cs[i];
      AnyUrgent(init, m, k) || (CountedFor(cs[|cs| - 1], m, k) && cs[|cs| - 1].props.isurgent)
  }

  /** The focused client is one of the counted ones. */
  function HasFocused(cs: seq<Client>, m: Monitor, focused: Client?, k: nat): (b: bool)
    requires k < TAG_COUNT
    reads cs
    ensures b <==> exists i :: 0 <= i < |cs| && CountedFor(cs[i], m, k) && cs[i] == focused
  {
    if |cs| == 0 then false
    else
      var init := cs[..|cs| - 1];
      assert forall i :: 0 <= i < |init| ==> init[i] == cs[i];
      HasFocused(init, m, focused, k) || (CountedFor(cs[|cs| - 1], m, k) && cs[|cs| - 1] == focused)
  }

  /** The count is exactly the number of positions holding a counted
    * client. */
  lemma {:induction false} CountOnIsCardinality(cs: seq<Client>, m: Monitor, k: nat)
    requires k < TAG_COUNT
    ensures CountOn(cs, m, k) == |set i | 0 <= i < |cs| && CountedFor(cs[i], m, k)|
  {
    if |cs| > 0 {
      var init := cs[..|cs| - 1];
      CountOnIsCardinality(init, m, k);
      var n := |cs| - 1;
      var before := set i | 0 <= i < |init| && CountedFor(init[i], m, k);
      var after := set i | 0 <= i < |cs| && CountedFor(cs[i], m, k);
      assert forall i :: 0 <= i < n ==> init[i] == cs[i];
      if CountedFor(cs[n], m, k) {
        assert after == before + {n};
      } else {
        assert after == before;
      }
    }
  }

  /** The `tag` event for tag `k`. */
  function TagStatusOf(cs: seq<Client>, m: Monitor, focused: Client?, k: nat): TagStatus
    requires k < TAG_COUNT
    reads cs, m`seltags, m`tagset0, m`tagset1
  {
    TagStatus(Meets(TAG_MASKS[k], m.SelectedTags()), AnyUrgent(cs, m, k), CountOn(cs, m, k), HasFocused(cs, m, focused, k))
  }

  /** What the event says: active when the tag is selected, the number
    * of clients of the monitor carrying the tag, urgent when one of them
    * is, and whether the focused client is one of them. */
  lemma TagStatusMeaning(cs: seq<Client>, m: Monitor, focused: Client?, k: nat)
    requires k < TAG_COUNT
    ensures var t := TagStatusOf(cs, m, focused, k);
            && (t.active <==> Meets(TAG_MASKS[k], m.SelectedTags()))
            && t.numclients == |set i | 0 <= i < |cs| && CountedFor(cs[i], m, k)|
            && (t.urgent <==> exists i :: 0 <= i < |cs| && CountedFor(cs[i], m, k) && cs[i].props.isurgent)
            && (t.focused <==> exists i :: 0 <= i < |cs| && CountedFor(cs[i], m, k) && cs[i] == focused)
  {
    CountOnIsCardinality(cs, m, k);
  }

  /** The body of the tag loop of `dwl_ipc_output_printstatus_to`. */
  method TagSummary(clients: seq<Client>, m: Monitor, focused: Client?, k: nat) returns (t: TagStatus)
    requires k < TAG_COUNT
    ensures t == TagStatusOf(clients, m, focused, k)
  {
    var urgent, numclients, focusedClient := false, 0, false;
    var active := Meets(TAG_MASKS[k], m.SelectedTags());
    var i := 0;
    while i < |clients|
      invariant i <= |clients| && numclients == CountOn(clients[..i], m, k)
      invariant urgent == AnyUrgent(clients[..i], m, k) && focusedClient == HasFocused(clients[..i], m, focused, k)
    {
      var c := clients[i];
      assert clients[..i + 1][..i] == clients[..i];
      if c.mon == m && Meets(c.tags, TAG_MASKS[k]) {
        if c == focused {
          focusedClient := true;
        }
        if c.props.isurgent {
          urgent := true;
        }
        numclients := numclients + 1;
      }
      i := i + 1;
    }
    assert clients[..i] == clients;
    t := TagStatus(active, urgent, numclients, focusedClient);
  }

  /** Each of them is the tag's bit. */
  lemma TagMasksAreBits()
    ensures |TAG_MASKS| == TAG_COUNT && forall k :: 0 <= k < TAG_COUNT ==> TAG_MASKS[k] == Bit(k)
  {
  }

  /** The tag events of one status update, tags 0 to 8 in order. */
  method PrintStatusTags(clients: seq<Client>, m: Monitor, focused: Client?) returns (tags: seq<TagStatus>)
    ensures |tags| == TAG_COUNT
    ensures forall k :: 0 <= k < TAG_COUNT ==> tags[k] == TagStatusOf(clients, m, focused, k)
  {
    tags := [];
    var k := 0;
    while k < TAG_COUNT
      invariant k <= TAG_COUNT && |tags| == k
      invariant forall j :: 0 <= j < k ==> tags[j] == TagStatusOf(clients, m, focused, j)
    {
      var t := TagSummary(clients, m, focused, k);
      tags := tags + [t];
      k := k + 1;
    }
  }

  /** Bit facts the request relies on, each stated without hypotheses. */
  lemma XorZero(p: bv32, x: bv32)
    ensures (p ^ x == 0) == (p == x)
  {
  }

  lemma XorTwice(p: bv32, x: bv32)
    ensures (p ^ x) ^ x == p
  {
  }

  lemma AndAll(p: bv32)
    ensures p & ALL_TAGS == p
  {
  }

  lemma XorKeeps(p: bv32, x: bv32)
    ensures (p ^ x == x) == (p == 0)
  {
  }

  /** The tags `set_client_tags` computes, or `None` when the request is
    * dropped; the source tests the result for zero, which is the same
    * test (`NewClientTagsDropped`). */
  function NewClientTags(tags: bv32, andTags: bv32, xorTags: bv32): (r: Option<bv32>)
    ensures r.Some? ==> r.value ^ xorTags == tags & andTags
  {
    XorTwice(tags & andTags, xorTags);
    if tags & andTags == xorTags then None else Some((tags & andTags) ^ xorTags)
  }

  /** The request is dropped exactly when `(tags & and) ^ xor` is zero,
    * and a stored result is never zero. */
  lemma NewClientTagsDropped(tags: bv32, andTags: bv32, xorTags: bv32)
    ensures NewClientTags(tags, andTags, xorTags).None? <==> (tags & andTags) ^ xorTags == 0
    ensures NewClientTags(tags, andTags, xorTags).Some? ==> NewClientTags(tags, andTags, xorTags).value != 0
  {
    XorZero(tags & andTags, xorTags);
  }

  /** Toggling with `and = ~0` is its own inverse: the same request twice
    * gives back a client's original (nonzero) tags. */
  lemma ToggleTwice(tags: bv32, xorTags: bv32)
    requires tags != 0 && NewClientTags(tags, ALL_TAGS, xorTags).Some?
    ensures NewClientTags(NewClientTags(tags, ALL_TAGS, xorTags).value, ALL_TAGS, xorTags) == Some(tags)
  {
    AndAll(tags);
    var n := tags ^ xorTags;
    assert NewClientTags(tags, ALL_TAGS, xorTags).value == n;
    AndAll(n);
    XorKeeps(tags, xorTags);
    XorTwice(tags, xorTags);
  }

  /** `and = 0` replaces the tags by `xor`, unless `xor` is empty. */
  lemma ReplaceTags(tags: bv32, xorTags: bv32)
    ensures NewClientTags(tags, 0, xorTags) == if xorTags == 0 then None else Some(xorTags)
  {
    assert (tags & 0) ^ xorTags == xorTags;
  }

  /** `dwl_ipc_output_set_client_tags` on the monitor's focused client
    * `sel`: nothing without a monitor, a focused client or a nonempty
    * result; otherwise the client gets the new tags. */
  method SetClientTags(m: Monitor?, sel: Client?, andTags: bv32, xorTags: bv32) returns (changed: bool)
    modifies if m != null && sel != null then {sel} else {}
    ensures changed <==> m != null && sel != null && NewClientTags(old(sel.tags), andTags, xorTags).Some?
    ensures changed ==> sel.tags == NewClientTags(old(sel.tags), andTags, xorTags).value
    ensures sel != null && !changed ==> sel.tags == old(sel.tags)
  {
    if m == null || sel == null {
      return false;
    }
    var newtags := NewClientTags(sel.tags, andTags, xorTags);
    if newtags.None? {
      return false;
    }
    sel.tags := newtags.value;
    return true;
  }

  /** The layout index `set_layout` uses: out-of-range requests fall back
    * to the first layout. */
  function LayoutIndex(index: nat, n: nat): (i: nat)
    requires n > 0
    ensures i < n
    ensures index < n ==> i == index
    ensures index >= n ==> i == 0
  {
    if index >= n then 0 else index
  }

  /** `dwl_ipc_output_set_layout`: the current tag's layout becomes the
    * chosen one and every other tag keeps its own. */
  method SetLayout(m: Monitor?, layouts: seq<Layout>, index: nat)
    requires |layouts| > 0 && (m != null ==> m.Valid())
    modifies if m != null then {m} else {}
    ensures m != null ==> m.Valid() && m.curtag == old(m.curtag)
                          && m.lts == old(m.lts)[m.curtag := layouts[LayoutIndex(index, |layouts|)]]
                          && m.CurrentLayout() == layouts[LayoutIndex(index, |layouts|)]
  {
    if m == null {
      return;
    }
    var i := index;
    if i >= |layouts| {
      i := 0;
    }
    m.lts := m.lts[m.curtag := layouts[i]];
  }

  /** `dwl_ipc_output_set_tags`: `view_in_mon` on the request masked to
    * the real tags, with animation. */
  method SetTags(m: Monitor?, tagmask: bv32) returns (arranged: Option<bool>)
    requires m != null ==> m.Valid()
    modifies {m}`seltags, {m}`tagset0, {m}`tagset1, {m}`curtag, {m}`prevtag
    ensures m == null ==> arranged.None?
    ensures m != null ==> m.Valid() && m.Tags() == ViewInMonSpec(old(m.Tags()), tagmask & TAGMASK, m.isoverview)
  {
    arranged := ViewInMon(m, tagmask & TAGMASK, true);
  }

  /** What `set_tags` does to a well-formed view: in the overview, or
    * with no real tag requested, nothing; otherwise the requested real
    * tags become the selected tagset, in the other slot. */
  lemma SetTagsEffect(v: TagView, tagmask: bv32, overview: bool)
    requires ValidView(v)
    ensures overview || tagmask & TAGMASK == 0 ==> ViewInMonSpec(v, tagmask & TAGMASK, overview) == v
    ensures !overview && tagmask & TAGMASK != 0
            ==> ViewInMonSpec(v, tagmask & TAGMASK, overview).Selected() == tagmask & TAGMASK
                && ViewInMonSpec(v, tagmask & TAGMASK, overview).seltags == 1 - v.seltags
  {
    var ui := tagmask & TAGMASK;
    assert ui != ALL_TAGS && TagBits(ui) == ui;
    if !overview && ui != 0 {
      ViewSelectsRequested(v, ui, overview);
    }
  }
}
